/** Exactly when reads stay right. Appends, overlapping or made again by the replication
    manager, reads, tiering, compaction and crashes may interleave in any way, and may fail;
    reads are right in every state of a run, and would be right after a crash, if and only if
    no step of the run does one of a few harms, each seen from the state before the step. */
module TieredExact {
  import opened Types
  import opened ColdIndex
  import opened TieredStore

  // --- What holds in every state of every run -------------------------------------------

  ghost predicate Named(cold: Cold) {
    forall st :: st in cold ==> cold[st].key == Key(st, cold[st].end)
  }

  /** The active segment is the last one and not the one that is being tiered, and every
      range is named by what it spans. */
  ghost predicate Sane(s: State) {
    && IsLast(s.wal, s.active) && Named(s.cold) && Named(s.Durable())
    && (!s.tiering.NotTiering? && !s.tiering.Stuck? ==> s.tiering.segment in s.wal && s.tiering.segment != s.active)
  }

  lemma SaneTiering(s: State, a: TierAction)
    requires Sane(s) && EnabledTiering(s, a)
    ensures Sane(StepTiering(s, a))
  {
    if a.RegisterRange? {
      var key := ObjectKey(s.wal[s.tiering.segment]);
      FoldRegister(s.manifest, key.start, key.end, key);
    }
  }

  lemma SaneCompaction(s: State, a: MergeAction)
    requires Sane(s) && EnabledCompaction(s, a)
    ensures Sane(StepCompaction(s, a))
  {
    if a.RecordMerged? {
      FoldCompact(s.manifest, Merged(s.compaction.sources), s.compaction.sources);
    }
  }

  lemma SaneAppend(s: State, a: AppendAction)
    requires Sane(s) && EnabledAppend(s, a)
    ensures Sane(StepAppend(s, a))
  {
  }

  lemma SaneRead(s: State, a: ReadAction)
    requires Sane(s) && EnabledRead(s, a)
    ensures Sane(StepRead(s, a))
  {
  }

  lemma SaneCrash(s: State, collected: set<Key>)
    requires Sane(s)
    ensures Sane(Recovered(s, collected))
  {
  }

  lemma SaneStep(s: State, a: Action)
    requires Sane(s) && Enabled(s, a)
    ensures Sane(Step(s, a))
  {
    match a
    case Append(b) => SaneAppend(s, b);
    case Serve(b) => SaneRead(s, b);
    case Tier(b) => SaneTiering(s, b);
    case Merge(b) => SaneCompaction(s, b);
    case Tear =>
    case Crash(collected) => SaneCrash(s, collected);
  }

  // --- Right reads, offset by offset -------------------------------------------------------

  /** Memory has a current record, or if it has none, the ranges and the cache answer with a
      run of the log, or with nothing where the log has no record. */
  ghost predicate InMemory(s: State, o: nat) {
    if o in s.hot then Current(s, Entry(o, s.hot[o]), o, true) else Backed(s.cold, s.objects, s.cache, s.log, o)
  }

  /** The objects that recovery can count on at `o`: where a record is due those that it cannot
      collect, and where none is due, all */
  ghost function Lasting(s: State, o: nat): Objects {
    if o in s.log then s.objects - Orphans(s.manifest) else s.objects
  }

  ghost predicate IsLatest(wal: Wal, log: Content, o: nat) {
    o in log && Latest(wal, o) == Some(log[o])
  }

  /** What was appended last, among what is still in the log segments, is the log's record; or
      if nothing is, the manifest's ranges answer. */
  ghost predicate OnDisk(s: State, o: nat) {
    if InWal(s.wal, o) then IsLatest(s.wal, s.log, o) else Backed(s.Durable(), Lasting(s, o), map[], s.log, o)
  }

  ghost predicate AllInMemory(s: State) {
    forall o: nat :: InMemory(s, o)
  }

  ghost predicate AllOnDisk(s: State) {
    forall o: nat :: OnDisk(s, o)
  }

  lemma RightCold(s: State, o: nat)
    requires o !in s.hot
    ensures Right(s, o) <==> InMemory(s, o)
  {
    var r := Read(s, o);
    if Right(s, o) {
      forall i | 0 <= i < |r| ensures IsAt(r[i], s.log, o + i) {
        assert Current(s, r[i], o + i, false);
      }
      if r != [] {
        assert IsAt(r[0], s.log, o + 0);
      }
    }
    if InMemory(s, o) {
      forall i | 0 <= i < |r| ensures Current(s, r[i], o + i, false) {
        assert IsAt(r[i], s.log, o + i);
      }
    }
  }

  lemma RightHot(s: State, o: nat)
    requires o in s.hot && AllInMemory(s)
    ensures Right(s, o)
  {
    var r := HotRun(s.hot, o);
    assert |r| > 0;
    forall i | 0 <= i < |r| ensures Current(s, r[i], o + i, true) {
      assert r[i].offset == o + i && r[i].offset in s.hot && r[i].record == s.hot[r[i].offset];
      assert InMemory(s, o + i);
    }
  }

  lemma RightNeedsHot(s: State, o: nat)
    requires o in s.hot && Right(s, o)
    ensures InMemory(s, o)
  {
    var r := Read(s, o);
    assert r[0] == Entry(o, s.hot[o]);
    assert Current(s, r[0], o + 0, true);
  }

  lemma ServesIff(s: State)
    ensures Serves(s) <==> AllInMemory(s)
  {
    if Serves(s) {
      forall o: nat ensures InMemory(s, o) {
        assert Right(s, o);
        if o in s.hot {
          RightNeedsHot(s, o);
        } else {
          RightCold(s, o);
        }
      }
    }
    if AllInMemory(s) {
      forall o: nat ensures Right(s, o) {
        assert InMemory(s, o);
        if o in s.hot {
          RightHot(s, o);
        } else {
          RightCold(s, o);
        }
      }
    }
  }

  /** After a crash, memory has what the log had or the manifest's ranges still serve. */
  lemma RecoveredIff(s: State, collected: set<Key>, o: nat)
    ensures InMemory(Recovered(s, collected), o)
       <==> if InWal(s.wal, o) then IsLatest(s.wal, s.log, o)
            else Backed(s.Durable(), s.objects - collected, map[], s.log, o)
  {
    HotOfContents(s.wal, o);
  }

  /** If the read survives every collection, it survives this one. */
  lemma LastingSuffices(s: State, collected: set<Key>, o: nat)
    requires collected <= Orphans(s.manifest) && Backed(s.Durable(), Lasting(s, o), map[], s.log, o)
    ensures Backed(s.Durable(), s.objects - collected, map[], s.log, o)
  {
    ReadAfterDelete(s.Durable(), s.objects, map[], Orphans(s.manifest), o);
    ReadAfterDelete(s.Durable(), s.objects, map[], collected, o);
  }

  lemma MemoryCrash(s: State, collected: set<Key>, o: nat)
    requires collected <= Orphans(s.manifest) && OnDisk(s, o)
    ensures InMemory(Recovered(s, collected), o)
  {
    RecoveredIff(s, collected, o);
    if !InWal(s.wal, o) {
      LastingSuffices(s, collected, o);
    }
  }

  lemma SurvivesNeedsDisk(s: State, o: nat)
    requires Survives(s)
    ensures OnDisk(s, o)
  {
    var collected := if o in s.log then Orphans(s.manifest) else {};
    assert Enabled(s, Crash(collected));
    ServesIff(Recovered(s, collected));
    assert InMemory(Recovered(s, collected), o);
    RecoveredIff(s, collected, o);
    assert s.objects - collected == Lasting(s, o);
  }

  lemma SurvivesIff(s: State)
    ensures Survives(s) <==> AllOnDisk(s)
  {
    if Survives(s) {
      forall o: nat ensures OnDisk(s, o) {
        SurvivesNeedsDisk(s, o);
      }
    }
    if AllOnDisk(s) {
      forall collected | Enabled(s, Crash(collected)) ensures Serves(Step(s, Crash(collected))) {
        forall o: nat ensures InMemory(Recovered(s, collected), o) {
          assert OnDisk(s, o);
          MemoryCrash(s, collected, o);
        }
        ServesIff(Recovered(s, collected));
      }
    }
  }

  // --- What a step harms ----------------------------------------------------------------------

  /** Putting this range into the ranges leaves `o` to it, and it does not answer for `o`: its
      object is missing or has other entries, or the cache has an outdated run. */
  ghost predicate Hides(cold: Cold, objects: Objects, cache: Cache, log: Content, key: Key, o: nat) {
    InFront(cold, key.start, o) && !Answers(Yield(Range(key.end, key), objects, cache, o), log, o)
  }

  /** Writing this object over another leaves reads at `o` without their answer. */
  ghost predicate Garbles(cold: Cold, cache: Cache, log: Content, key: Key, data: seq<Entry>, o: nat) {
    PointsTo(cold, key, o) && o !in cache && !Answers(From(data, o), log, o)
  }

  /** Without this object reads at `o` find nothing, and something is due. */
  ghost predicate Starves(cold: Cold, cache: Cache, log: Content, key: Key, o: nat) {
    PointsTo(cold, key, o) && o !in cache && o in log
  }

  /** Replacing a span leaves `o` to the merged range, and it does not answer for `o`. */
  ghost predicate MergeHides(cold: Cold, objects: Objects, cache: Cache, log: Content, m: Key, o: nat) {
    SpanInFront(cold, m, o) && !Answers(Yield(Range(m.end, m), objects, cache, o), log, o)
  }

  function Set(keys: seq<Key>): set<Key> {
    set k | k in keys
  }

  /** Recording the merge leaves `o` to the merged range without an answer, or gives up a source
      that `o` relies on elsewhere. */
  ghost predicate Supersedes(s: State, m: Key, sources: set<Key>, o: nat) {
    || MergeHides(s.Durable(), if o in s.log then Lasting(s, o) - sources else s.objects, map[], s.log, m, o)
    || (!SpanInFront(s.Durable(), m, o) && o in s.log && ReliesOn(s.Durable(), sources, o))
  }

  /** The entry replaces another record of the log, and the run from `o` runs into that one. */
  ghost predicate Outdates(run: seq<Entry>, log: Content, e: Entry, o: nat) {
    e.offset in log && e.record != log[e.offset] && o <= e.offset < o + |run|
  }

  // The step takes the right read at `o` away, from memory or from recovery:

  ghost predicate AppendHarmsMemory(s: State, a: AppendAction, o: nat)
    requires EnabledAppend(s, a)
  {
    match a
    // a record becomes durable that is not the one in memory, or that is not in memory at all
    // while the ranges or the cache serve another one in its place, or nothing;
    case WalOk(id) =>
      var e := s.pending[id];
      if o in s.hot then o == e.offset && s.hot[o] != e.record && !IsPending(s, Entry(o, s.hot[o]))
      else (o == e.offset && o !in s.log) || Outdates(ReadCold(s.cold, s.objects, s.cache, o), s.log, e, o)
    // the append of a record fails at an offset that memory alone served;
    case WalFail(id) => s.pending[id].offset == o && !Backed(s.cold, s.objects, s.cache, s.log, o)
    case _ => false
  }

  ghost predicate AppendHarmsDisk(s: State, a: AppendAction, o: nat)
    requires EnabledAppend(s, a)
  {
    match a
    case WalOk(id) =>
      && !InWal(s.wal, o) && s.pending[id].offset != o
      && Outdates(ReadCold(s.Durable(), Lasting(s, o), map[], o), s.log, s.pending[id], o)
    // the log keeps a record whose append failed and that is not the log's;
    case Keep(id) => s.pending[id].offset == o && !IsAt(s.pending[id], s.log, o)
    case _ => false
  }

  ghost predicate ReadHarmsMemory(s: State, a: ReadAction, o: nat)
    requires EnabledRead(s, a)
  {
    match a
    case Fetch(_, _, _) => false
    // the answer of a read that was overtaken by a write goes into the cache,
    case Fill(id) =>
      s.fetched[id].offset == o && o !in s.hot && Reached(s.cold, o) && !Answers(s.fetched[id].run, s.log, o)
    // or a right one is dropped from the cache that no object could give any more;
    case Drop(p) => p == o && o !in s.hot && !Backed(s.cold, s.objects, map[], s.log, o)
  }

  ghost predicate TierHarmsMemory(s: State, a: TierAction, o: nat)
    requires EnabledTiering(s, a)
  {
    match a
    // an object that reads rely on is written anew with other entries, or broken;
    case Upload(q, bytes) =>
      && bytes <= s.config.threshold && o !in s.hot
      && Garbles(s.cold, s.cache, s.log, ObjectKey(s.wal[q]), s.wal[q], o)
    case BreakUpload(q) => o !in s.hot && Starves(s.cold, s.cache, s.log, ObjectKey(s.wal[q]), o)
    // the new range comes in front without answering for the offset, or memory lets go of an
    // offset that the new range does not come in front of and no range answers for;
    case Flip =>
      var key := ObjectKey(s.wal[s.tiering.segment]);
      && (o in s.hot ==> key.start <= o < key.end)
      && (Hides(s.cold, s.objects, s.cache, s.log, key, o)
          || (!InFront(s.cold, key.start, o) && !Backed(s.cold, s.objects, s.cache, s.log, o)))
    case _ => false
  }

  ghost predicate TierHarmsDisk(s: State, a: TierAction, o: nat)
    requires EnabledTiering(s, a)
  {
    match a
    case Upload(q, bytes) =>
      && bytes <= s.config.threshold && !InWal(s.wal, o)
      && (o in s.log ==> ObjectKey(s.wal[q]) !in Orphans(s.manifest))
      && Garbles(s.Durable(), map[], s.log, ObjectKey(s.wal[q]), s.wal[q], o)
    case BreakUpload(q) => !InWal(s.wal, o) && Starves(s.Durable(), map[], s.log, ObjectKey(s.wal[q]), o)
    case RegisterRange =>
      && !s.torn && !InWal(s.wal, o)
      && Hides(s.Durable(), Lasting(s, o), map[], s.log, ObjectKey(s.wal[s.tiering.segment]), o)
    // the log lets go of the current record, and what is left of it has another one, or has
    // none and no lasting object serves it;
    case Reclaim =>
      var rest := s.wal - {s.tiering.segment};
      if InWal(rest, o) then !IsLatest(rest, s.log, o) else !Backed(s.Durable(), Lasting(s, o), map[], s.log, o)
    case _ => false
  }

  ghost predicate MergeHarmsMemory(s: State, a: MergeAction, o: nat)
    requires EnabledCompaction(s, a)
  {
    match a
    case UploadMerged(bytes) =>
      && bytes <= s.config.threshold && o !in s.hot
      && Garbles(s.cold, s.cache, s.log, Merged(s.compaction.sources), s.compaction.data, o)
    case BreakMerged => o !in s.hot && Starves(s.cold, s.cache, s.log, Merged(s.compaction.sources), o)
    // the merged range comes in front without answering for the offset;
    case Replace => o !in s.hot && MergeHides(s.cold, s.objects, s.cache, s.log, Merged(s.compaction.sources), o)
    // an object that reads rely on is deleted;
    case DeleteSource(deleted) => deleted && o !in s.hot && Starves(s.cold, s.cache, s.log, s.compaction.left[0], o)
    case _ => false
  }

  ghost predicate MergeHarmsDisk(s: State, a: MergeAction, o: nat)
    requires EnabledCompaction(s, a)
  {
    match a
    case UploadMerged(bytes) =>
      && bytes <= s.config.threshold && !InWal(s.wal, o)
      && (o in s.log ==> Merged(s.compaction.sources) !in Orphans(s.manifest))
      && Garbles(s.Durable(), map[], s.log, Merged(s.compaction.sources), s.compaction.data, o)
    case BreakMerged => !InWal(s.wal, o) && Starves(s.Durable(), map[], s.log, Merged(s.compaction.sources), o)
    // the merged range comes in front without answering for the offset, or a source is given
    // up that is still relied on elsewhere;
    case RecordMerged(_) =>
      !s.torn && !InWal(s.wal, o) && Supersedes(s, Merged(s.compaction.sources), Set(s.compaction.sources), o)
    // a source is deleted that the manifest still relies on, because the merge could not be
    // recorded or the source was registered again.
    case DeleteSource(deleted) =>
      deleted && !InWal(s.wal, o) && Starves(s.Durable(), map[], s.log, s.compaction.left[0], o)
    case _ => false
  }

  ghost predicate HarmsMemory(s: State, a: Action, o: nat)
    requires Enabled(s, a)
  {
    match a
    case Append(b) => AppendHarmsMemory(s, b, o)
    case Serve(b) => ReadHarmsMemory(s, b, o)
    case Tier(b) => TierHarmsMemory(s, b, o)
    case Merge(b) => MergeHarmsMemory(s, b, o)
    case _ => false
  }

  ghost predicate HarmsDisk(s: State, a: Action, o: nat)
    requires Enabled(s, a)
  {
    match a
    case Append(b) => AppendHarmsDisk(s, b, o)
    case Tier(b) => TierHarmsDisk(s, b, o)
    case Merge(b) => MergeHarmsDisk(s, b, o)
    case _ => false
  }

  ghost predicate Harms(s: State, a: Action, o: nat)
    requires Enabled(s, a)
  {
    HarmsMemory(s, a, o) || HarmsDisk(s, a, o)
  }

  ghost predicate Safe(s: State) {
    AllInMemory(s) && AllOnDisk(s)
  }

  // --- Each step, in memory -----------------------------------------------------------------------

  /** An answer stays one unless it runs into the record that is replaced, or is empty where
      the first record of the offset comes. */
  lemma AnswersAfterWrite(run: seq<Entry>, log: Content, e: Entry, o: nat)
    requires Answers(run, log, o)
    ensures Answers(run, log[e.offset := e.record], o) <==> !Outdates(run, log, e, o) && (o == e.offset ==> o in log)
  {
    var log' := log[e.offset := e.record];
    if o in log {
      if Outdates(run, log, e, o) {
        var i := e.offset - o;
        assert IsAt(run[i], log, o + i);
        assert !IsAt(run[i], log', o + i);
      } else {
        forall i | 0 <= i < |run| ensures IsAt(run[i], log', o + i) {
          assert IsAt(run[i], log, o + i);
        }
      }
    }
  }

  lemma MemoryPut(s: State, id: nat, e: Entry, o: nat)
    requires EnabledAppend(s, Put(id, e)) && InMemory(s, o)
    ensures InMemory(StepAppend(s, Put(id, e)), o)
  {
    var s' := StepAppend(s, Put(id, e));
    if o == e.offset {
      assert s'.pending[id] == Entry(o, s'.hot[o]);
    } else if o in s.hot && IsPending(s, Entry(o, s.hot[o])) {
      var other :| other in s.pending && s.pending[other] == Entry(o, s.hot[o]);
      assert s'.pending[other] == Entry(o, s.hot[o]);
    }
  }

  /** The other appends that are under way stay so. */
  lemma PendingWithout(s: State, id: nat, e: Entry, s': State)
    requires id in s.pending && s'.pending == s.pending - {id}
    ensures IsPending(s', e) ==> IsPending(s, e)
    ensures IsPending(s, e) && s.pending[id] != e ==> IsPending(s', e)
  {
    if IsPending(s', e) {
      var other :| other in s'.pending && s'.pending[other] == e;
      assert s.pending[other] == e;
    }
    if IsPending(s, e) && s.pending[id] != e {
      var other :| other in s.pending && s.pending[other] == e;
      assert s'.pending[other] == e;
    }
  }

  lemma MemoryWalOk(s: State, id: nat, o: nat)
    requires EnabledAppend(s, WalOk(id)) && InMemory(s, o)
    ensures InMemory(StepAppend(s, WalOk(id)), o) <==> !AppendHarmsMemory(s, WalOk(id), o)
  {
    var s' := StepAppend(s, WalOk(id));
    if o in s.hot {
      PendingWithout(s, id, Entry(o, s.hot[o]), s');
    } else {
      AnswersAfterWrite(ReadCold(s.cold, s.objects, s.cache, o), s.log, s.pending[id], o);
    }
  }

  lemma MemoryWalFail(s: State, id: nat, o: nat)
    requires EnabledAppend(s, WalFail(id)) && InMemory(s, o)
    ensures InMemory(StepAppend(s, WalFail(id)), o) <==> !AppendHarmsMemory(s, WalFail(id), o)
  {
    var s' := StepAppend(s, WalFail(id));
    if o in s'.hot {
      PendingWithout(s, id, Entry(o, s.hot[o]), s');
    }
  }

  lemma MemoryAppend(s: State, a: AppendAction, o: nat)
    requires EnabledAppend(s, a) && InMemory(s, o)
    ensures InMemory(StepAppend(s, a), o) <==> !AppendHarmsMemory(s, a, o)
  {
    match a
    case Put(id, e) => MemoryPut(s, id, e, o);
    case WalOk(id) => MemoryWalOk(s, id, o);
    case WalFail(id) => MemoryWalFail(s, id, o);
    case _ =>
  }

  lemma MemoryRead(s: State, a: ReadAction, o: nat)
    requires EnabledRead(s, a) && InMemory(s, o)
    ensures InMemory(StepRead(s, a), o) <==> !ReadHarmsMemory(s, a, o)
  {
    ReadCached(s.cold, s.objects, s.cache, o);
    ReadCached(s.cold, s.objects, StepRead(s, a).cache, o);
  }

  lemma PutReads(cold: Cold, objects: Objects, cache: Cache, log: Content, key: Key, data: seq<Entry>, o: nat)
    requires Backed(cold, objects, cache, log, o)
    ensures Backed(cold, objects[key := data], cache, log, o) <==> !Garbles(cold, cache, log, key, data, o)
  {
    ReadAfterPut(cold, objects, cache, key, data, o);
  }

  lemma DeletedReads(cold: Cold, objects: Objects, cache: Cache, log: Content, key: Key, o: nat)
    requires Backed(cold, objects, cache, log, o)
    ensures Backed(cold, objects - {key}, cache, log, o) <==> !Starves(cold, cache, log, key, o)
  {
    ReadAfterDelete(cold, objects, cache, {key}, o);
  }

  lemma InsertedReads(cold: Cold, objects: Objects, cache: Cache, log: Content, key: Key, o: nat)
    ensures Backed(InsertCold(cold, key.start, key.end, key), objects, cache, log, o)
       <==> !Hides(cold, objects, cache, log, key, o)
            && (InFront(cold, key.start, o) || Backed(cold, objects, cache, log, o))
  {
    ReadAfterInsert(cold, objects, cache, key, o);
  }

  /** The two states differ, as far as reads see it, in the objects only. */
  ghost predicate SameButObjects(s: State, s': State) {
    && s'.log == s.log && s'.hot == s.hot && s'.cold == s.cold && s'.cache == s.cache && s'.pending == s.pending
  }

  lemma MemoryStored(s: State, key: Key, data: seq<Entry>, bytes: nat, s': State, o: nat)
    requires InMemory(s, o) && SameButObjects(s, s')
    requires s'.objects == Stored(s.config, s.objects, key, data, bytes)
    ensures InMemory(s', o)
       <==> !(bytes <= s.config.threshold && o !in s.hot && Garbles(s.cold, s.cache, s.log, key, data, o))
  {
    if o !in s.hot {
      PutReads(s.cold, s.objects, s.cache, s.log, key, data, o);
    }
  }

  lemma MemoryDeleted(s: State, key: Key, s': State, o: nat)
    requires InMemory(s, o) && SameButObjects(s, s') && s'.objects == s.objects - {key}
    ensures InMemory(s', o) <==> !(o !in s.hot && Starves(s.cold, s.cache, s.log, key, o))
  {
    if o !in s.hot {
      DeletedReads(s.cold, s.objects, s.cache, s.log, key, o);
    }
  }

  lemma MemoryFlip(s: State, o: nat)
    requires EnabledTiering(s, Flip) && InMemory(s, o)
    ensures InMemory(StepTiering(s, Flip), o) <==> !TierHarmsMemory(s, Flip, o)
  {
    InsertedReads(s.cold, s.objects, s.cache, s.log, ObjectKey(s.wal[s.tiering.segment]), o);
  }

  lemma MemoryTiering(s: State, a: TierAction, o: nat)
    requires EnabledTiering(s, a) && InMemory(s, o)
    ensures InMemory(StepTiering(s, a), o) <==> !TierHarmsMemory(s, a, o)
  {
    match a
    case Upload(q, bytes) => MemoryStored(s, ObjectKey(s.wal[q]), s.wal[q], bytes, StepTiering(s, a), o);
    case BreakUpload(q) => MemoryDeleted(s, ObjectKey(s.wal[q]), StepTiering(s, a), o);
    case Flip => MemoryFlip(s, o);
    case _ =>
  }

  /** These steps change neither what reads see nor what recovery finds. */
  predicate Preparatory(a: MergeAction) {
    a.Plan? || a.Begin? || a.Download? || a.Abandon?
  }

  lemma PreparatoryStep(s: State, a: MergeAction)
    requires EnabledCompaction(s, a) && Preparatory(a)
    ensures var s' := StepCompaction(s, a);
            && SameButObjects(s, s') && s'.objects == s.objects && s'.wal == s.wal && s'.manifest == s.manifest
  {
  }

  lemma MemoryPreparatory(s: State, a: MergeAction, o: nat)
    requires EnabledCompaction(s, a) && Preparatory(a) && InMemory(s, o)
    ensures InMemory(StepCompaction(s, a), o)
  {
    PreparatoryStep(s, a);
  }

  lemma MemoryReplace(s: State, o: nat)
    requires EnabledCompaction(s, Replace) && InMemory(s, o)
    ensures InMemory(StepCompaction(s, Replace), o) <==> !MergeHarmsMemory(s, Replace, o)
  {
    ReadAfterReplace(s.cold, s.objects, s.cache, Merged(s.compaction.sources), o);
  }

  lemma MemoryDelete(s: State, deleted: bool, o: nat)
    requires EnabledCompaction(s, DeleteSource(deleted)) && InMemory(s, o)
    ensures InMemory(StepCompaction(s, DeleteSource(deleted)), o) <==> !MergeHarmsMemory(s, DeleteSource(deleted), o)
  {
    if deleted {
      MemoryDeleted(s, s.compaction.left[0], StepCompaction(s, DeleteSource(deleted)), o);
    }
  }

  lemma MemoryCompaction(s: State, a: MergeAction, o: nat)
    requires EnabledCompaction(s, a) && InMemory(s, o)
    ensures InMemory(StepCompaction(s, a), o) <==> !MergeHarmsMemory(s, a, o)
  {
    match a
    case UploadMerged(bytes) =>
      MemoryStored(s, Merged(s.compaction.sources), s.compaction.data, bytes, StepCompaction(s, a), o);
    case BreakMerged => MemoryDeleted(s, Merged(s.compaction.sources), StepCompaction(s, a), o);
    case RecordMerged(_) =>
    case Replace => MemoryReplace(s, o);
    case DeleteSource(deleted) => MemoryDelete(s, deleted, o);
    case _ => MemoryPreparatory(s, a, o);
  }

  lemma MemoryStep(s: State, a: Action, o: nat)
    requires Enabled(s, a) && InMemory(s, o) && OnDisk(s, o)
    ensures InMemory(Step(s, a), o) <==> !HarmsMemory(s, a, o)
  {
    match a
    case Append(b) => MemoryAppend(s, b, o);
    case Serve(b) => MemoryRead(s, b, o);
    case Tier(b) => MemoryTiering(s, b, o);
    case Merge(b) => MemoryCompaction(s, b, o);
    case Tear =>
    case Crash(collected) => MemoryCrash(s, collected, o);
  }

  // --- Each step, on disk ---------------------------------------------------------------------------

  lemma DiskStored(s: State, key: Key, data: seq<Entry>, bytes: nat, s': State, o: nat)
    requires OnDisk(s, o) && s'.log == s.log && s'.wal == s.wal && s'.manifest == s.manifest
    requires s'.objects == Stored(s.config, s.objects, key, data, bytes)
    ensures OnDisk(s', o)
       <==> !(&& bytes <= s.config.threshold && !InWal(s.wal, o)
              && (o in s.log ==> key !in Orphans(s.manifest)) && Garbles(s.Durable(), map[], s.log, key, data, o))
  {
    var orphans := Orphans(s.manifest);
    if bytes <= s.config.threshold && !InWal(s.wal, o) {
      PutReads(s.Durable(), Lasting(s, o), map[], s.log, key, data, o);
      if o in s.log {
        if key in orphans {
          assert s.objects[key := data] - orphans == s.objects - orphans;
        } else {
          assert s.objects[key := data] - orphans == (s.objects - orphans)[key := data];
        }
      }
    }
  }

  lemma DiskDeleted(s: State, key: Key, s': State, o: nat)
    requires OnDisk(s, o) && s'.log == s.log && s'.wal == s.wal && s'.manifest == s.manifest
    requires s'.objects == s.objects - {key}
    ensures OnDisk(s', o) <==> !(!InWal(s.wal, o) && Starves(s.Durable(), map[], s.log, key, o))
  {
    if !InWal(s.wal, o) {
      DeletedReads(s.Durable(), Lasting(s, o), map[], s.log, key, o);
      assert (s.objects - {key}) - Orphans(s.manifest) == (s.objects - Orphans(s.manifest)) - {key};
    }
  }

  lemma DiskRegister(s: State, o: nat)
    requires EnabledTiering(s, RegisterRange) && OnDisk(s, o)
    ensures OnDisk(StepTiering(s, RegisterRange), o) <==> !TierHarmsDisk(s, RegisterRange, o)
  {
    var key := ObjectKey(s.wal[s.tiering.segment]);
    FoldRegister(s.manifest, key.start, key.end, key);
    InsertedReads(s.Durable(), Lasting(s, o), map[], s.log, key, o);
  }

  lemma DifferenceTwice(objects: Objects, a: set<Key>, b: set<Key>)
    ensures objects - (a + b) == (objects - a) - b
  {
  }

  lemma MergedReads(cold: Cold, objects: Objects, log: Content, m: Key, sources: set<Key>, o: nat)
    requires Backed(cold, objects, map[], log, o)
    ensures Backed(ReplaceCold(cold, m.start, m.end, m), objects - sources, map[], log, o)
       <==> !MergeHides(cold, objects - sources, map[], log, m, o)
            && (SpanInFront(cold, m, o) || !ReliesOn(cold, sources, o) || o !in log)
  {
    ReadAfterReplace(cold, objects - sources, map[], m, o);
    ReadAfterDelete(cold, objects, map[], sources, o);
  }

  lemma MergeRecordedReads(s: State, m: Key, sources: set<Key>, o: nat)
    requires Backed(s.Durable(), Lasting(s, o), map[], s.log, o)
    ensures var after := if o in s.log then s.objects - (Orphans(s.manifest) + sources) else s.objects;
            Backed(ReplaceCold(s.Durable(), m.start, m.end, m), after, map[], s.log, o)
            <==> !Supersedes(s, m, sources, o)
  {
    DifferenceTwice(s.objects, Orphans(s.manifest), sources);
    if o in s.log {
      MergedReads(s.Durable(), Lasting(s, o), s.log, m, sources, o);
    } else {
      ReadAfterReplace(s.Durable(), s.objects, map[], m, o);
    }
  }

  lemma DiskRecordMerged(s: State, sources: seq<Key>, s': State, o: nat)
    requires OnDisk(s, o) && sources != [] && s'.log == s.log && s'.wal == s.wal && s'.objects == s.objects
    requires var m := Merged(sources); s'.manifest == s.manifest + [Compact(m.start, m.end, m, sources)]
    ensures OnDisk(s', o) <==> !(!InWal(s.wal, o) && Supersedes(s, Merged(sources), Set(sources), o))
  {
    FoldCompact(s.manifest, Merged(sources), sources);
    if !InWal(s.wal, o) {
      MergeRecordedReads(s, Merged(sources), Set(sources), o);
    }
  }

  /** A new empty segment holds nothing. */
  lemma LatestNext(wal: Wal, next: nat, o: nat)
    requires next !in wal
    ensures Latest(wal[next := []], o) == Latest(wal, o) && (InWal(wal[next := []], o) <==> InWal(wal, o))
  {
    assert wal[next := []] - {next} == wal;
    LatestWithout(wal[next := []], next, o);
  }

  lemma DiskCrash(s: State, collected: set<Key>, o: nat)
    requires Sane(s) && collected <= Orphans(s.manifest) && OnDisk(s, o)
    ensures OnDisk(Recovered(s, collected), o)
  {
    LatestNext(s.wal, s.active + 1, o);
    assert (s.objects - collected) - Orphans(s.manifest) == s.objects - Orphans(s.manifest);
    if o !in s.log {
      ReadAfterDelete(s.Durable(), s.objects, map[], collected, o);
    }
  }

  lemma HasGrown(segment: seq<Entry>, e: Entry, o: nat)
    ensures Has(segment + [e], o) <==> Has(segment, o) || o == e.offset
    ensures Entries(segment + [e]) == Entries(segment)[e.offset := e.record]
  {
    var grown := segment + [e];
    assert grown[..|segment|] == segment;
    if o == e.offset {
      assert grown[|segment|].offset == o;
    }
    if Has(segment, o) {
      var i :| 0 <= i < |segment| && segment[i].offset == o;
      assert grown[i].offset == o;
    }
    if Has(grown, o) && o != e.offset {
      var i :| 0 <= i < |grown| && grown[i].offset == o;
      assert segment[i].offset == o;
    }
  }

  lemma SegmentGrown(wal: Wal, active: nat, e: Entry, o: nat, q: nat)
    requires active in wal
    ensures InSegment(wal[active := wal[active] + [e]], q, o)
            <==> InSegment(wal, q, o) || (q == active && o == e.offset)
  {
    HasGrown(wal[active], e, o);
  }

  lemma InWalGrown(wal: Wal, active: nat, e: Entry, o: nat)
    requires active in wal
    ensures InWal(wal[active := wal[active] + [e]], o) <==> InWal(wal, o) || o == e.offset
  {
    var wal' := wal[active := wal[active] + [e]];
    SegmentGrown(wal, active, e, o, active);
    if q: nat :| InSegment(wal, q, o) {
      SegmentGrown(wal, active, e, o, q);
    }
    if q: nat :| InSegment(wal', q, o) {
      SegmentGrown(wal, active, e, o, q);
    }
  }

  lemma NewestGrown(wal: Wal, active: nat, e: Entry, o: nat, q: nat)
    requires active in wal && o != e.offset
    ensures IsNewest(wal[active := wal[active] + [e]], q, o) <==> IsNewest(wal, q, o)
  {
    var wal' := wal[active := wal[active] + [e]];
    forall r: nat ensures InSegment(wal', r, o) <==> InSegment(wal, r, o) {
      SegmentGrown(wal, active, e, o, r);
    }
  }

  lemma LatestElsewhere(wal: Wal, active: nat, e: Entry, o: nat)
    requires active in wal && o != e.offset
    ensures Latest(wal[active := wal[active] + [e]], o) == Latest(wal, o)
  {
    var wal' := wal[active := wal[active] + [e]];
    if q: nat :| IsNewest(wal, q, o) {
      NewestGrown(wal, active, e, o, q);
      LatestAt(wal, q, o);
      LatestAt(wal', q, o);
      HasGrown(wal[active], e, o);
    } else {
      forall q: nat ensures !IsNewest(wal', q, o) {
        NewestGrown(wal, active, e, o, q);
      }
    }
  }

  /** What is appended to the last segment is the latest at its offset, and only there. */
  lemma LatestGrown(wal: Wal, active: nat, e: Entry, o: nat)
    requires IsLast(wal, active)
    ensures Latest(wal[active := wal[active] + [e]], o) == if o == e.offset then Some(e.record) else Latest(wal, o)
  {
    if o == e.offset {
      var wal' := wal[active := wal[active] + [e]];
      HasGrown(wal[active], e, o);
      assert InSegment(wal', active, o) && IsNewest(wal', active, o);
      LatestAt(wal', active, o);
    } else {
      LatestElsewhere(wal, active, e, o);
    }
  }

  /** One more entry at the end of the active segment */
  lemma DiskGrown(s: State, e: Entry, s': State, o: nat)
    requires Sane(s) && OnDisk(s, o) && s'.wal == s.wal[s.active := s.wal[s.active] + [e]]
    requires s'.manifest == s.manifest && s'.objects == s.objects
    ensures o == e.offset ==> (OnDisk(s', o) <==> IsAt(e, s'.log, o))
    ensures o != e.offset && s'.log == s.log ==> OnDisk(s', o)
    ensures o != e.offset && s'.log == s.log[e.offset := e.record] ==>
              (OnDisk(s', o)
               <==> InWal(s.wal, o) || !Outdates(ReadCold(s.Durable(), Lasting(s, o), map[], o), s.log, e, o))
  {
    InWalGrown(s.wal, s.active, e, o);
    LatestGrown(s.wal, s.active, e, o);
    if !InWal(s.wal, o) {
      AnswersAfterWrite(ReadCold(s.Durable(), Lasting(s, o), map[], o), s.log, e, o);
    }
  }

  lemma DiskAppend(s: State, a: AppendAction, o: nat)
    requires Sane(s) && EnabledAppend(s, a) && OnDisk(s, o)
    ensures OnDisk(StepAppend(s, a), o) <==> !AppendHarmsDisk(s, a, o)
  {
    match a
    case WalOk(id) => DiskGrown(s, s.pending[id], StepAppend(s, a), o);
    case Keep(id) => DiskGrown(s, s.pending[id], StepAppend(s, a), o);
    case Seal => LatestNext(s.wal, s.active + 1, o);
    case _ =>
  }

  lemma DiskTiering(s: State, a: TierAction, o: nat)
    requires EnabledTiering(s, a) && OnDisk(s, o)
    ensures OnDisk(StepTiering(s, a), o) <==> !TierHarmsDisk(s, a, o)
  {
    match a
    case Upload(q, bytes) => DiskStored(s, ObjectKey(s.wal[q]), s.wal[q], bytes, StepTiering(s, a), o);
    case BreakUpload(q) => DiskDeleted(s, ObjectKey(s.wal[q]), StepTiering(s, a), o);
    case RegisterRange => DiskRegister(s, o);
    case ReclaimEmpty(q) => LatestWithout(s.wal, q, o);
    case _ =>
  }

  lemma DiskRecord(s: State, reported: bool, o: nat)
    requires EnabledCompaction(s, RecordMerged(reported)) && OnDisk(s, o)
    ensures OnDisk(StepCompaction(s, RecordMerged(reported)), o) <==> !MergeHarmsDisk(s, RecordMerged(reported), o)
  {
    if !s.torn {
      DiskRecordMerged(s, s.compaction.sources, StepCompaction(s, RecordMerged(reported)), o);
    }
  }

  lemma DiskPreparatory(s: State, a: MergeAction, o: nat)
    requires EnabledCompaction(s, a) && Preparatory(a) && OnDisk(s, o)
    ensures OnDisk(StepCompaction(s, a), o)
  {
    PreparatoryStep(s, a);
  }

  lemma DiskDelete(s: State, deleted: bool, o: nat)
    requires EnabledCompaction(s, DeleteSource(deleted)) && OnDisk(s, o)
    ensures OnDisk(StepCompaction(s, DeleteSource(deleted)), o) <==> !MergeHarmsDisk(s, DeleteSource(deleted), o)
  {
    if deleted {
      DiskDeleted(s, s.compaction.left[0], StepCompaction(s, DeleteSource(deleted)), o);
    }
  }

  lemma DiskCompaction(s: State, a: MergeAction, o: nat)
    requires EnabledCompaction(s, a) && OnDisk(s, o)
    ensures OnDisk(StepCompaction(s, a), o) <==> !MergeHarmsDisk(s, a, o)
  {
    match a
    case UploadMerged(bytes) =>
      DiskStored(s, Merged(s.compaction.sources), s.compaction.data, bytes, StepCompaction(s, a), o);
    case BreakMerged => DiskDeleted(s, Merged(s.compaction.sources), StepCompaction(s, a), o);
    case RecordMerged(reported) => DiskRecord(s, reported, o);
    case Replace =>
    case DeleteSource(deleted) => DiskDelete(s, deleted, o);
    case _ => DiskPreparatory(s, a, o);
  }

  lemma DiskRead(s: State, a: ReadAction, o: nat)
    requires EnabledRead(s, a) && OnDisk(s, o)
    ensures OnDisk(StepRead(s, a), o)
  {
  }

  lemma DiskStep(s: State, a: Action, o: nat)
    requires Sane(s) && Enabled(s, a) && OnDisk(s, o)
    ensures OnDisk(Step(s, a), o) <==> !HarmsDisk(s, a, o)
  {
    match a
    case Append(b) => DiskAppend(s, b, o);
    case Serve(b) => DiskRead(s, b, o);
    case Tier(b) => DiskTiering(s, b, o);
    case Merge(b) => DiskCompaction(s, b, o);
    case Tear =>
    case Crash(collected) => DiskCrash(s, collected, o);
  }

  lemma StepSafeIff(s: State, a: Action)
    requires Sane(s) && Enabled(s, a) && Safe(s)
    ensures Safe(Step(s, a)) <==> forall o: nat :: !Harms(s, a, o)
  {
    var s' := Step(s, a);
    forall o: nat ensures InMemory(s', o) && OnDisk(s', o) <==> !Harms(s, a, o) {
      assert InMemory(s, o) && OnDisk(s, o);
      MemoryStep(s, a, o);
      DiskStep(s, a, o);
    }
  }

  // --- Every run -----------------------------------------------------------------------------------

  lemma {:induction false} TraceSane(states: seq<State>, actions: seq<Action>, k: nat)
    requires Trace(states, actions) && k <= |actions|
    ensures Sane(states[k])
  {
    if k > 0 {
      TraceSane(states, actions, k - 1);
      assert Follows(states[k - 1], actions[k - 1], states[k - 1 + 1]);
      SaneStep(states[k - 1], actions[k - 1]);
    }
  }

  lemma SafeIff(s: State)
    ensures Safe(s) <==> Serves(s) && Survives(s)
  {
    ServesIff(s);
    SurvivesIff(s);
  }

  ghost predicate HarmsAt(states: seq<State>, actions: seq<Action>, k: nat, o: nat)
    requires Trace(states, actions) && k < |actions|
  {
    assert Follows(states[k], actions[k], states[k + 1]);
    Harms(states[k], actions[k], o)
  }

  /** No step of the run harms a read. */
  ghost predicate Harmless(states: seq<State>, actions: seq<Action>)
    requires Trace(states, actions)
  {
    forall k, o: nat :: 0 <= k < |actions| ==> !HarmsAt(states, actions, k, o)
  }

  ghost predicate Holds(s: State) {
    Serves(s) && Survives(s)
  }

  lemma {:induction false} HarmlessIsSafe(states: seq<State>, actions: seq<Action>, k: nat)
    requires Trace(states, actions) && Harmless(states, actions) && k <= |actions|
    ensures Safe(states[k])
  {
    if k > 0 {
      HarmlessIsSafe(states, actions, k - 1);
      TraceSane(states, actions, k - 1);
      assert Follows(states[k - 1], actions[k - 1], states[k - 1 + 1]);
      var before, a := states[k - 1], actions[k - 1];
      StepSafeIff(before, a);
      forall o: nat ensures !Harms(before, a, o) {
        assert !HarmsAt(states, actions, k - 1, o);
      }
    }
  }

  /** Reads are right in every state of a run, and would be after a crash in every state with
      whichever superseded objects collected, if and only if no step of the run harms a read. */
  lemma AlwaysRightIffHarmless(states: seq<State>, actions: seq<Action>)
    requires Trace(states, actions)
    ensures (forall k :: 0 <= k < |states| ==> Holds(states[k])) <==> Harmless(states, actions)
  {
    if Harmless(states, actions) {
      forall k | 0 <= k < |states| ensures Holds(states[k]) {
        HarmlessIsSafe(states, actions, k);
        SafeIff(states[k]);
      }
    }
    if forall k :: 0 <= k < |states| ==> Holds(states[k]) {
      forall k, o: nat | 0 <= k < |actions| ensures !HarmsAt(states, actions, k, o) {
        assert Holds(states[k]) && Holds(states[k + 1]);
        assert Follows(states[k], actions[k], states[k + 1]);
        TraceSane(states, actions, k);
        SafeIff(states[k]);
        SafeIff(states[k + 1]);
        StepSafeIff(states[k], actions[k]);
      }
    }
  }
}
