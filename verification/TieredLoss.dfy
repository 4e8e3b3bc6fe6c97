/** When tiering or merging takes right reads away, in terms of the size and the entries of what
    is uploaded and of what is in memory, in the write-ahead log, in the cache and among the
    superseded objects before: for a segment whose range is new, for a merge, and for a
    segment inside a range that is live already. */
module TieredLoss {
  import opened Types
  import opened ColdIndex
  import opened TieredStore
  import opened TieredExact

  // --- Entries that serve their range ------------------------------------------------------

  lemma {:induction false} FromFrom(data: seq<Entry>, a: nat, o: nat)
    requires a <= o
    ensures From(From(data, a), o) == From(data, o)
  {
    if data != [] {
      var init, last := data[..|data| - 1], data[|data| - 1];
      FromFrom(init, a, o);
      if last.offset >= a {
        assert (From(init, a) + [last])[..|From(init, a)|] == From(init, a);
      } else {
        assert From(data, a) == From(init, a);
      }
    }
  }

  ghost predicate ServesRange(data: seq<Entry>, log: Content) {
    forall o: nat :: First(data) <= o < Behind(data) ==> Answers(From(data, o), log, o)
  }

  /** The entries from the first offset on are the log's, each once and in order. */
  ghost predicate InSequence(data: seq<Entry>, log: Content) {
    IsSlice(From(data, First(data)), log, First(data), Behind(data))
  }

  lemma SequenceAnswers(log: Content, data: seq<Entry>, o: nat)
    requires InSequence(data, log) && First(data) <= o < Behind(data)
    ensures o in log && Answers(From(data, o), log, o)
  {
    FromFrom(data, First(data), o);
    FromSlice(From(data, First(data)), log, First(data), Behind(data), o);
    SliceIsRun(From(data, o), log, o, Behind(data));
  }

  lemma RunIsSlice(log: Content, data: seq<Entry>)
    requires data != [] && First(data) < Behind(data) && RunOf(From(data, First(data)), log, First(data))
    ensures InSequence(data, log)
  {
    var a, run := First(data), From(data, First(data));
    assert run[|run| - 1] == data[|data| - 1];
    assert IsAt(run[|run| - 1], log, a + (|run| - 1));
  }

  lemma {:induction false} FirstIsFrom(data: seq<Entry>)
    requires data != []
    ensures From(data, First(data)) != []
    decreases |data|
  {
    if |data| > 1 {
      var init := data[..|data| - 1];
      assert First(init) == First(data);
      FirstIsFrom(init);
    }
  }

  /** Answers at the first offset are answers at all of them. */
  lemma FirstDecides(log: Content, data: seq<Entry>)
    requires data != [] && First(data) < Behind(data)
    ensures Answers(From(data, First(data)), log, First(data)) <==> InSequence(data, log)
  {
    if InSequence(data, log) {
      SequenceAnswers(log, data, First(data));
    } else if Answers(From(data, First(data)), log, First(data)) {
      if First(data) in log {
        RunIsSlice(log, data);
      } else {
        FirstIsFrom(data);
      }
    }
  }

  /** The object serves every offset of its range exactly when its entries from the first
      on are the log's, each once and in order. */
  lemma ServesRangeIff(log: Content, data: seq<Entry>)
    requires data != [] && First(data) < Behind(data)
    ensures ServesRange(data, log) <==> InSequence(data, log)
  {
    FirstDecides(log, data);
    if InSequence(data, log) {
      forall o: nat | First(data) <= o < Behind(data) ensures Answers(From(data, o), log, o) {
        SequenceAnswers(log, data, o);
      }
    }
  }

  // --- A segment whose range is new -----------------------------------------------------

  /** No range reaches into [a, b) or begins there. */
  ghost predicate Clear(cold: Cold, a: nat, b: nat) {
    forall st :: st in cold ==> (st <= a && cold[st].end <= a) || b <= st
  }

  /** Where every range up to `o` has ended, nothing is found. */
  lemma NotReached(cold: Cold, objects: Objects, cache: Cache, o: nat)
    requires forall st :: st in cold && st <= o ==> cold[st].end <= o
    ensures ReadCold(cold, objects, cache, o) == []
  {
    if exists st :: IsFloor(cold, o, st) {
      var st :| IsFloor(cold, o, st);
      ReadAtFloor(cold, objects, cache, o, st);
    }
  }

  /** An object is read only through the range that names it. */
  lemma NamedPoints(cold: Cold, key: Key, o: nat)
    requires Named(cold) && PointsTo(cold, key, o)
    ensures Live(cold, key) && key.start <= o < key.end
  {
  }

  function Uploads(objects: Objects, key: Key, data: seq<Entry>, stored: bool): Objects {
    if stored then objects[key := data] else objects
  }

  /** A new range answers for its own offsets, from its object if that was stored. */
  lemma FreshRange(cold: Cold, objects: Objects, cache: Cache, key: Key, data: seq<Entry>, stored: bool, o: nat)
    requires Named(cold) && key.start < key.end && Clear(cold, key.start, key.end) && key !in objects
    requires key.start <= o < key.end ==> o !in cache
    ensures ReadCold(InsertCold(cold, key.start, key.end, key), Uploads(objects, key, data, stored), cache, o)
         == if key.start <= o < key.end then (if stored then From(data, o) else [])
            else ReadCold(cold, objects, cache, o)
  {
    ReadAfterInsert(cold, Uploads(objects, key, data, stored), cache, key, o);
    if !(key.start <= o < key.end) {
      if InFront(cold, key.start, o) {
        NotReached(cold, objects, cache, o);
      } else if stored {
        ReadAfterPut(cold, objects, cache, key, data, o);
        if PointsTo(cold, key, o) {
          NamedPoints(cold, key, o);
        }
      }
    }
  }

  /** A segment is about to be tiered whose range is new, with an object of this size. */
  ghost predicate TiersFresh(s: State, q: nat, bytes: nat) {
    && EnabledTiering(s, Upload(q, bytes)) && !s.torn && First(s.wal[q]) < Behind(s.wal[q])
    && ObjectKey(s.wal[q]) !in s.objects
  }

  /** The pass over the segment: upload, register and flip, and reclaim in the end */
  ghost function Passed(s: State, q: nat, bytes: nat, reclaimed: bool): State
    requires q in s.wal
  {
    var key := ObjectKey(s.wal[q]);
    s.(objects := Stored(s.config, s.objects, key, s.wal[q], bytes),
       manifest := s.manifest + [Register(key.start, key.end, key)],
       hot := Without(s.hot, key.start, key.end), cold := InsertCold(s.cold, key.start, key.end, key),
       wal := if reclaimed then s.wal - {q} else s.wal, tiering := if reclaimed then NotTiering else Flipped(q))
  }

  lemma PassedSteps(s: State, q: nat, bytes: nat)
    requires EnabledTiering(s, Upload(q, bytes)) && !s.torn && First(s.wal[q]) < Behind(s.wal[q])
    ensures var s1 := StepTiering(s, Upload(q, bytes));
            && EnabledTiering(s1, RegisterRange)
            && var s2 := StepTiering(s1, RegisterRange);
               && EnabledTiering(s2, Flip)
               && var s3 := StepTiering(s2, Flip);
                  && s3 == Passed(s, q, bytes, false) && EnabledTiering(s3, Reclaim)
                  && StepTiering(s3, Reclaim) == Passed(s, q, bytes, true)
  {
  }

  /** What reads at the offsets of the new range need: the entries in sequence, or if only parts
      were uploaded, that nothing is due there */
  ghost predicate FreshAnswers(s: State, q: nat, bytes: nat)
    requires q in s.wal
  {
    if bytes <= s.config.threshold then InSequence(s.wal[q], s.log)
    else forall o: nat :: First(s.wal[q]) <= o < Behind(s.wal[q]) ==> o !in s.log
  }

  ghost predicate FreshAnswersAt(s: State, q: nat, bytes: nat, o: nat)
    requires q in s.wal
  {
    Answers(if bytes <= s.config.threshold then From(s.wal[q], o) else [], s.log, o)
  }

  lemma FreshAnswersIff(s: State, q: nat, bytes: nat)
    requires q in s.wal && s.wal[q] != [] && First(s.wal[q]) < Behind(s.wal[q])
    ensures FreshAnswers(s, q, bytes)
       <==> forall o: nat :: First(s.wal[q]) <= o < Behind(s.wal[q]) ==> FreshAnswersAt(s, q, bytes, o)
  {
    if bytes <= s.config.threshold {
      ServesRangeIff(s.log, s.wal[q]);
      forall o: nat ensures FreshAnswersAt(s, q, bytes, o) <==> Answers(From(s.wal[q], o), s.log, o) {
      }
    } else {
      forall o: nat ensures FreshAnswersAt(s, q, bytes, o) <==> o !in s.log {
      }
    }
  }

  lemma FreshMemory(s: State, q: nat, bytes: nat, o: nat)
    requires Sane(s) && TiersFresh(s, q, bytes) && Clear(s.cold, First(s.wal[q]), Behind(s.wal[q])) && InMemory(s, o)
    requires First(s.wal[q]) <= o < Behind(s.wal[q]) ==> o !in s.cache
    ensures InMemory(Passed(s, q, bytes, false), o)
       <==> (First(s.wal[q]) <= o < Behind(s.wal[q]) ==> FreshAnswersAt(s, q, bytes, o))
  {
    var key := ObjectKey(s.wal[q]);
    FreshRange(s.cold, s.objects, s.cache, key, s.wal[q], bytes <= s.config.threshold, o);
  }

  /** Tiering a segment whose range is new and not cached keeps reads right exactly when its
      object is within the threshold and its entries, from the first one on, are the log's,
      each once and in order; an object above the threshold is all right only if nothing is
      due in its range. */
  lemma FreshServesIff(s: State, q: nat, bytes: nat)
    requires Sane(s) && Serves(s) && TiersFresh(s, q, bytes) && Clear(s.cold, First(s.wal[q]), Behind(s.wal[q]))
    requires forall o :: o in s.cache ==> o < First(s.wal[q]) || Behind(s.wal[q]) <= o
    ensures Serves(Passed(s, q, bytes, false)) <==> FreshAnswers(s, q, bytes)
  {
    var s', segment := Passed(s, q, bytes, false), s.wal[q];
    ServesIff(s);
    ServesIff(s');
    FreshAnswersIff(s, q, bytes);
    forall o: nat
      ensures InMemory(s', o) <==> (First(segment) <= o < Behind(segment) ==> FreshAnswersAt(s, q, bytes, o))
    {
      assert InMemory(s, o);
      FreshMemory(s, q, bytes, o);
    }
    if AllInMemory(s') {
      forall o: nat | First(segment) <= o < Behind(segment) ensures FreshAnswersAt(s, q, bytes, o) {
        assert InMemory(s', o);
      }
    }
  }

  /** The segment alone has its offsets. */
  ghost predicate SoleCopy(wal: Wal, q: nat)
    requires q in wal
  {
    forall o: nat :: Has(wal[q], o) ==> !InWal(wal - {q}, o)
  }

  lemma FreshLasting(s: State, q: nat, bytes: nat, o: nat)
    requires TiersFresh(s, q, bytes) && ObjectKey(s.wal[q]) !in Orphans(s.manifest)
    ensures var s', key := Passed(s, q, bytes, true), ObjectKey(s.wal[q]);
            && s'.Durable() == InsertCold(s.Durable(), key.start, key.end, key)
            && Lasting(s', o) == Uploads(Lasting(s, o), key, s.wal[q], bytes <= s.config.threshold)
  {
    var key := ObjectKey(s.wal[q]);
    FoldRegister(s.manifest, key.start, key.end, key);
    assert s.objects[key := s.wal[q]] - Orphans(s.manifest) == (s.objects - Orphans(s.manifest))[key := s.wal[q]];
  }

  ghost predicate NewOnDisk(s: State, q: nat)
    requires q in s.wal
  {
    && ObjectKey(s.wal[q]) !in Orphans(s.manifest) && Clear(s.Durable(), First(s.wal[q]), Behind(s.wal[q]))
    && SoleCopy(s.wal, q)
  }

  lemma FreshDisk(s: State, q: nat, bytes: nat, o: nat)
    requires Sane(s) && TiersFresh(s, q, bytes) && NewOnDisk(s, q)
    ensures OnDisk(Passed(s, q, bytes, true), o)
       <==> if InWal(s.wal - {q}, o) then IsLatest(s.wal - {q}, s.log, o)
            else if First(s.wal[q]) <= o < Behind(s.wal[q]) then FreshAnswersAt(s, q, bytes, o)
            else Backed(s.Durable(), Lasting(s, o), map[], s.log, o)
  {
    FreshLasting(s, q, bytes, o);
    FreshRange(s.Durable(), Lasting(s, o), map[], ObjectKey(s.wal[q]), s.wal[q], bytes <= s.config.threshold, o);
  }

  /** What the segment has outside its range is served without it. */
  ghost predicate StraysServed(s: State, q: nat)
    requires q in s.wal
  {
    forall o: nat :: Has(s.wal[q], o) && !(First(s.wal[q]) <= o < Behind(s.wal[q])) ==>
      Backed(s.Durable(), Lasting(s, o), map[], s.log, o)
  }

  lemma HasFirst(segment: seq<Entry>)
    requires segment != []
    ensures Has(segment, First(segment))
  {
    assert segment[0].offset == First(segment);
  }

  lemma FreshLossless(s: State, q: nat, bytes: nat, o: nat)
    requires Sane(s) && OnDisk(s, o) && TiersFresh(s, q, bytes) && NewOnDisk(s, q)
    requires bytes <= s.config.threshold && InSequence(s.wal[q], s.log) && StraysServed(s, q)
    ensures OnDisk(Passed(s, q, bytes, true), o)
  {
    FreshDisk(s, q, bytes, o);
    if !Has(s.wal[q], o) {
      LatestWithout(s.wal, q, o);
    }
    if First(s.wal[q]) <= o < Behind(s.wal[q]) {
      SequenceAnswers(s.log, s.wal[q], o);
    }
  }

  /** Once the segment of a new range is reclaimed, a crash loses nothing exactly when its
      object is within the threshold, its entries from the first one on are the log's, each
      once and in order, and what it has outside its range is served without it. */
  lemma FreshSurvivesIff(s: State, q: nat, bytes: nat)
    requires Sane(s) && Survives(s) && TiersFresh(s, q, bytes) && NewOnDisk(s, q)
    ensures Survives(Passed(s, q, bytes, true))
       <==> bytes <= s.config.threshold && InSequence(s.wal[q], s.log) && StraysServed(s, q)
  {
    var s', segment := Passed(s, q, bytes, true), s.wal[q];
    SurvivesIff(s);
    SurvivesIff(s');
    HasFirst(segment);
    assert InSegment(s.wal, q, First(segment)) && OnDisk(s, First(segment));
    FreshDisk(s, q, bytes, First(segment));
    FirstDecides(s.log, segment);
    if AllOnDisk(s') {
      assert OnDisk(s', First(segment));
      forall o: nat | Has(segment, o) && !(First(segment) <= o < Behind(segment))
        ensures Backed(s.Durable(), Lasting(s, o), map[], s.log, o)
      {
        assert OnDisk(s', o);
        FreshDisk(s, q, bytes, o);
      }
    }
    if bytes <= s.config.threshold && InSequence(segment, s.log) && StraysServed(s, q) {
      forall o: nat ensures OnDisk(s', o) {
        assert OnDisk(s, o);
        FreshLossless(s, q, bytes, o);
      }
    }
  }

  // --- A merge ---------------------------------------------------------------------------------

  /** Nothing but the sources begins in the span of the merge. */
  ghost predicate OnlySources(cold: Cold, sources: seq<Key>)
    requires sources != []
  {
    && AllLive(cold, sources)
    && forall st :: st in cold && Merged(sources).start <= st < Merged(sources).end ==> cold[st].key in sources
  }

  lemma MergedIsNoSource(sources: seq<Key>)
    requires Contiguous(sources) && |sources| >= 2
    ensures Merged(sources) !in sources && Merged(sources).start < Merged(sources).end
  {
    SourceBounds(sources, 0);
    if Merged(sources) in sources {
      var i :| 0 <= i < |sources| && sources[i] == Merged(sources);
      SourceBounds(sources, i);
    }
  }

  /** Behind the span of the merge, its sources have ended. */
  lemma BehindSpan(cold: Cold, objects: Objects, cache: Cache, sources: seq<Key>, o: nat)
    requires Named(cold) && Contiguous(sources) && OnlySources(cold, sources)
    requires SpanInFront(cold, Merged(sources), o) && Merged(sources).end <= o
    ensures ReadCold(cold, objects, cache, o) == []
  {
    assert Live(cold, sources[0]);
    FloorExists(cold, o, sources[0].start);
    var st :| IsFloor(cold, o, st);
    ReadAtFloor(cold, objects, cache, o, st);
    var i :| 0 <= i < |sources| && sources[i] == cold[st].key;
    SourceBounds(sources, i);
  }

  lemma SourceSpans(cold: Cold, sources: seq<Key>, o: nat)
    requires Named(cold) && Contiguous(sources) && ReliesOn(cold, Set(sources), o)
    ensures Merged(sources).start <= o < Merged(sources).end
  {
    var k :| k in Set(sources) && PointsTo(cold, k, o);
    NamedPoints(cold, k, o);
    var i :| 0 <= i < |sources| && sources[i] == k;
    SourceBounds(sources, i);
  }

  /** The merged range answers for its span, from its object if that was stored, and all sources
      may go. */
  lemma MergedRange(cold: Cold, objects: Objects, cache: Cache, sources: seq<Key>, data: seq<Entry>, stored: bool,
                    o: nat)
    requires Named(cold) && Contiguous(sources) && |sources| >= 2 && OnlySources(cold, sources)
    requires Merged(sources) !in objects && (Merged(sources).start <= o < Merged(sources).end ==> o !in cache)
    ensures var m := Merged(sources);
            ReadCold(ReplaceCold(cold, m.start, m.end, m), Uploads(objects, m, data, stored) - Set(sources), cache, o)
            == if m.start <= o < m.end then (if stored then From(data, o) else [])
               else ReadCold(cold, objects, cache, o)
  {
    var m := Merged(sources);
    var uploaded := Uploads(objects, m, data, stored);
    MergedIsNoSource(sources);
    ReadAfterReplace(cold, uploaded - Set(sources), cache, m, o);
    if !(m.start <= o < m.end) {
      if SpanInFront(cold, m, o) {
        BehindSpan(cold, objects, cache, sources, o);
      } else {
        ReadAfterDelete(cold, uploaded, cache, Set(sources), o);
        ReadAfterPut(cold, objects, cache, m, data, o);
        if ReliesOn(cold, Set(sources), o) {
          SourceSpans(cold, sources, o);
        } else if PointsTo(cold, m, o) {
          NamedPoints(cold, m, o);
        }
      }
    }
  }

  /** The sources of a merge have been downloaded, and nothing else is in its way. */
  ghost predicate Merges(s: State, bytes: nat) {
    && EnabledCompaction(s, UploadMerged(bytes)) && !s.torn
    && var sources := s.compaction.sources;
       && Contiguous(sources) && |sources| >= 2 && Merged(sources) !in s.objects
       && IsSlice(s.compaction.data, s.log, Merged(sources).start, Merged(sources).end)
  }

  /** The merge is uploaded, recorded and put in the place of its sources, and those are
      deleted. */
  ghost function MergeDone(s: State, bytes: nat): State
    requires s.compaction.Downloading? && s.compaction.sources != []
  {
    var sources, m := s.compaction.sources, Merged(s.compaction.sources);
    s.(objects := Stored(s.config, s.objects, m, s.compaction.data, bytes) - Set(sources),
       manifest := s.manifest + [Compact(m.start, m.end, m, sources)],
       cold := ReplaceCold(s.cold, m.start, m.end, m), compaction := Replaced([]))
  }

  /** All sources that are left are deleted. */
  ghost function DeleteAll(s: State): State
    requires s.compaction.Replaced?
    decreases |s.compaction.left|
  {
    if s.compaction.left == [] then s else DeleteAll(StepCompaction(s, DeleteSource(true)))
  }

  lemma {:induction false} DeleteAllState(s: State)
    requires s.compaction.Replaced?
    ensures DeleteAll(s) == s.(objects := s.objects - Set(s.compaction.left), compaction := Replaced([]))
    decreases |s.compaction.left|
  {
    var left := s.compaction.left;
    if left == [] {
      assert s.objects - Set(left) == s.objects;
    } else {
      DeleteAllState(StepCompaction(s, DeleteSource(true)));
      assert (s.objects - {left[0]}) - Set(left[1..]) == s.objects - Set(left);
    }
  }

  lemma MergeSteps(s: State, bytes: nat)
    requires Merges(s, bytes)
    ensures var s1 := StepCompaction(s, UploadMerged(bytes));
            && EnabledCompaction(s1, RecordMerged(true))
            && var s2 := StepCompaction(s1, RecordMerged(true));
               && EnabledCompaction(s2, Replace)
               && var s3 := StepCompaction(s2, Replace);
                  s3.compaction.Replaced? && DeleteAll(s3) == MergeDone(s, bytes)
  {
    MergedIsNoSource(s.compaction.sources);
    var s2 := StepCompaction(StepCompaction(s, UploadMerged(bytes)), RecordMerged(true));
    DeleteAllState(StepCompaction(s2, Replace));
  }

  lemma SpanAnswers(s: State, bytes: nat, o: nat)
    requires Merges(s, bytes) && Merged(s.compaction.sources).start <= o < Merged(s.compaction.sources).end
    ensures o in s.log && RunOf(From(s.compaction.data, o), s.log, o)
  {
    var m := Merged(s.compaction.sources);
    FromSlice(s.compaction.data, s.log, m.start, m.end, o);
    SliceIsRun(From(s.compaction.data, o), s.log, o, m.end);
  }

  lemma MergeMemory(s: State, bytes: nat, o: nat)
    requires Sane(s) && Merges(s, bytes) && OnlySources(s.cold, s.compaction.sources) && InMemory(s, o)
    requires Merged(s.compaction.sources).start <= o < Merged(s.compaction.sources).end ==> o !in s.cache
    ensures InMemory(MergeDone(s, bytes), o)
       <==> (Merged(s.compaction.sources).start <= o < Merged(s.compaction.sources).end ==>
               o in s.hot || bytes <= s.config.threshold)
  {
    var sources := s.compaction.sources;
    MergedRange(s.cold, s.objects, s.cache, sources, s.compaction.data, bytes <= s.config.threshold, o);
    if Merged(sources).start <= o < Merged(sources).end {
      SpanAnswers(s, bytes, o);
    }
  }

  /** Once a merge is done and its sources are deleted, reads are right exactly when its object
      is within the threshold or memory has everything it spans. */
  lemma MergeServesIff(s: State, bytes: nat)
    requires Sane(s) && Serves(s) && Merges(s, bytes) && OnlySources(s.cold, s.compaction.sources)
    requires var m := Merged(s.compaction.sources); forall o :: o in s.cache ==> o < m.start || m.end <= o
    ensures Serves(MergeDone(s, bytes))
       <==> || bytes <= s.config.threshold
            || var m := Merged(s.compaction.sources); forall o: nat :: m.start <= o < m.end ==> o in s.hot
  {
    var s', m := MergeDone(s, bytes), Merged(s.compaction.sources);
    ServesIff(s);
    ServesIff(s');
    forall o: nat
      ensures InMemory(s', o) <==> (m.start <= o < m.end ==> o in s.hot || bytes <= s.config.threshold)
    {
      assert InMemory(s, o);
      MergeMemory(s, bytes, o);
    }
    if AllInMemory(s') && bytes > s.config.threshold {
      forall o: nat | m.start <= o < m.end ensures o in s.hot {
        assert InMemory(s', o);
      }
    }
  }

  lemma LastingAfterMerge(objects: Objects, orphans: set<Key>, sources: set<Key>, m: Key, data: seq<Entry>,
                          stored: bool)
    ensures (Uploads(objects, m, data, stored) - sources) - (orphans + sources)
         == Uploads(objects - orphans, m, data, stored && m !in orphans) - sources
  {
  }

  /** The object is stored, and recovery cannot collect it where it is due. */
  ghost predicate StoredFor(s: State, m: Key, bytes: nat, o: nat) {
    bytes <= s.config.threshold && (o in s.log ==> m !in Orphans(s.manifest))
  }

  lemma MergeLasting(s: State, bytes: nat, o: nat)
    requires Merges(s, bytes)
    ensures var s', m := MergeDone(s, bytes), Merged(s.compaction.sources);
            && s'.Durable() == ReplaceCold(s.Durable(), m.start, m.end, m)
            && Lasting(s', o)
               == Uploads(Lasting(s, o), m, s.compaction.data, StoredFor(s, m, bytes, o)) - Set(s.compaction.sources)
  {
    var m, sources := Merged(s.compaction.sources), s.compaction.sources;
    FoldCompact(s.manifest, m, sources);
    LastingAfterMerge(s.objects, Orphans(s.manifest), Set(sources), m, s.compaction.data, bytes <= s.config.threshold);
  }

  lemma MergeBacked(s: State, bytes: nat, o: nat)
    requires Sane(s) && Merges(s, bytes) && OnlySources(s.Durable(), s.compaction.sources)
    ensures var s', m := MergeDone(s, bytes), Merged(s.compaction.sources);
            ReadCold(s'.Durable(), Lasting(s', o), map[], o)
            == if m.start <= o < m.end then (if StoredFor(s, m, bytes, o) then From(s.compaction.data, o) else [])
               else ReadCold(s.Durable(), Lasting(s, o), map[], o)
  {
    var m := Merged(s.compaction.sources);
    MergeLasting(s, bytes, o);
    MergedRange(s.Durable(), Lasting(s, o), map[], s.compaction.sources, s.compaction.data, StoredFor(s, m, bytes, o),
                o);
  }

  lemma MergeDisk(s: State, bytes: nat, o: nat)
    requires Sane(s) && Merges(s, bytes) && OnlySources(s.Durable(), s.compaction.sources) && OnDisk(s, o)
    ensures var m := Merged(s.compaction.sources);
            OnDisk(MergeDone(s, bytes), o)
            <==> (m.start <= o < m.end ==>
                    InWal(s.wal, o) || (bytes <= s.config.threshold && m !in Orphans(s.manifest)))
  {
    var m := Merged(s.compaction.sources);
    MergeBacked(s, bytes, o);
    if m.start <= o < m.end {
      SpanAnswers(s, bytes, o);
    }
  }

  /** A crash then loses nothing exactly when the merge's object is within the threshold and
      was not superseded before, or the log has everything it spans. */
  lemma MergeSurvivesIff(s: State, bytes: nat)
    requires Sane(s) && Survives(s) && Merges(s, bytes) && OnlySources(s.Durable(), s.compaction.sources)
    ensures var m := Merged(s.compaction.sources);
            Survives(MergeDone(s, bytes))
            <==> || (bytes <= s.config.threshold && m !in Orphans(s.manifest))
                 || forall o: nat :: m.start <= o < m.end ==> InWal(s.wal, o)
  {
    var s', m := MergeDone(s, bytes), Merged(s.compaction.sources);
    var lasts := bytes <= s.config.threshold && m !in Orphans(s.manifest);
    SurvivesIff(s);
    SurvivesIff(s');
    forall o: nat ensures OnDisk(s', o) <==> (m.start <= o < m.end ==> InWal(s.wal, o) || lasts) {
      assert OnDisk(s, o);
      MergeDisk(s, bytes, o);
    }
    if AllOnDisk(s') && !lasts {
      forall o: nat | m.start <= o < m.end ensures InWal(s.wal, o) {
        assert OnDisk(s', o);
      }
    }
  }

  // --- A segment inside a range that is live already ----------------------------------------

  /** The range is live, and no other begins within it. */
  ghost predicate Alone(cold: Cold, m: Key) {
    Live(cold, m) && forall st :: st in cold ==> st <= m.start || m.end <= st
  }

  /** The range of the segment lies within `m`. */
  ghost predicate Part(segment: seq<Entry>, log: Content, m: Key) {
    segment != [] && IsSlice(segment, log, First(segment), Behind(segment))
    && m.start <= First(segment) && Behind(segment) <= m.end
  }

  lemma PartAnswers(segment: seq<Entry>, log: Content, m: Key, o: nat)
    requires Part(segment, log, m) && First(segment) <= o < Behind(segment)
    ensures o in log && RunOf(From(segment, o), log, o)
  {
    FromSlice(segment, log, First(segment), Behind(segment), o);
    SliceIsRun(From(segment, o), log, o, Behind(segment));
  }

  /** What a range inside another serves at one of its offsets */
  ghost predicate ServedInside(objects: Objects, cache: Cache, log: Content, key: Key, o: nat) {
    if o in cache then RunOf(cache[o], log, o) else key in objects
  }

  /** Putting the range of the segment in front of the rest of `m` serves the segment's
      offsets if the cache or its object does, and hides what follows of `m`. */
  lemma BackedAfter(cold: Cold, objects: Objects, cache: Cache, m: Key, segment: seq<Entry>, log: Content, o: nat)
    requires Alone(cold, m) && Part(segment, log, m)
    requires ObjectKey(segment) in objects ==> objects[ObjectKey(segment)] == segment
    ensures Backed(InsertCold(cold, First(segment), Behind(segment), ObjectKey(segment)), objects, cache, log, o)
       <==> if First(segment) <= o < Behind(segment) then ServedInside(objects, cache, log, ObjectKey(segment), o)
            else if Behind(segment) <= o < m.end then o !in log
            else Backed(cold, objects, cache, log, o)
  {
    var a, b, key := First(segment), Behind(segment), ObjectKey(segment);
    ReadAfterInsert(cold, objects, cache, key, o);
    if a <= o < b {
      PartAnswers(segment, log, m, o);
      assert InFront(cold, a, o);
    } else if b <= o < m.end {
      assert InFront(cold, a, o);
    } else if InFront(cold, a, o) {
      assert IsFloor(cold, o, m.start);
      ReadAtFloor(cold, objects, cache, o, m.start);
    }
  }

  /** A segment inside a live range was uploaded, again or under a range merged since. */
  ghost predicate Retiers(s: State, m: Key) {
    && s.tiering.Uploaded? && s.tiering.segment in s.wal && !s.torn
    && var segment := s.wal[s.tiering.segment];
       && Part(segment, s.log, m) && Alone(s.cold, m) && Alone(s.Durable(), m)
       && ObjectKey(segment) in s.objects && s.objects[ObjectKey(segment)] == segment
  }

  /** The rest of the pass: register, flip, reclaim */
  ghost function Finished(s: State): State
    requires s.tiering.Uploaded? && s.tiering.segment in s.wal
  {
    var key := ObjectKey(s.wal[s.tiering.segment]);
    s.(manifest := s.manifest + [Register(key.start, key.end, key)],
       hot := Without(s.hot, key.start, key.end), cold := InsertCold(s.cold, key.start, key.end, key),
       wal := s.wal - {s.tiering.segment}, tiering := NotTiering)
  }

  lemma FinishedSteps(s: State, m: Key)
    requires Retiers(s, m)
    ensures EnabledTiering(s, RegisterRange)
    ensures var s1 := StepTiering(s, RegisterRange);
            && EnabledTiering(s1, Flip)
            && var s2 := StepTiering(s1, Flip);
               EnabledTiering(s2, Reclaim) && StepTiering(s2, Reclaim) == Finished(s)
  {
  }

  ghost function Deleted(s: State, gone: set<Key>): State {
    s.(objects := s.objects - gone)
  }

  /** What follows of the range is in memory. */
  ghost predicate RestHot(s: State, b: nat, m: Key) {
    forall o: nat :: b <= o < m.end && o in s.log ==> o in s.hot
  }

  ghost predicate RestInWal(s: State, b: nat, m: Key) {
    forall o: nat :: b <= o < m.end && o in s.log ==> InWal(s.wal, o)
  }

  /** The segment's own offsets are served by what the cache has, or by its object. */
  ghost predicate PartServed(s: State, segment: seq<Entry>, gone: set<Key>) {
    forall o: nat :: First(segment) <= o < Behind(segment) ==>
      ServedInside(s.objects - gone, s.cache, s.log, ObjectKey(segment), o)
  }

  /** Once the segment is gone, what the rest of the log has at an offset is the current
      record, or it has none and the segment's object is not superseded. */
  ghost predicate OutlivesSegment(s: State, q: nat, o: nat)
    requires q in s.wal
  {
    if InWal(s.wal - {q}, o) then IsLatest(s.wal - {q}, s.log, o) else ObjectKey(s.wal[q]) !in Orphans(s.manifest)
  }

  ghost predicate SegmentDispensable(s: State, q: nat)
    requires q in s.wal
  {
    forall o: nat :: First(s.wal[q]) <= o < Behind(s.wal[q]) ==> OutlivesSegment(s, q, o)
  }

  lemma RetierMemory(s: State, m: Key, gone: set<Key>, o: nat)
    requires Retiers(s, m) && InMemory(Deleted(s, gone), o)
    ensures var segment := s.wal[s.tiering.segment];
            InMemory(Deleted(Finished(s), gone), o)
            <==> && (Behind(segment) <= o < m.end && o in s.log ==> o in s.hot)
                 && (First(segment) <= o < Behind(segment) ==>
                       ServedInside(s.objects - gone, s.cache, s.log, ObjectKey(segment), o))
  {
    BackedAfter(s.cold, s.objects - gone, s.cache, m, s.wal[s.tiering.segment], s.log, o);
  }

  /** After the pass and the deletion of any pending sources, reads are right exactly when
      the rest of the live range is in memory, and what the cache has of the segment is
      current and the rest of it is in an object that was not among the deleted ones. */
  lemma RetierServesIff(s: State, m: Key, gone: set<Key>)
    requires Retiers(s, m) && Serves(Deleted(s, gone))
    ensures var segment := s.wal[s.tiering.segment];
            Serves(Deleted(Finished(s), gone)) <==> RestHot(s, Behind(segment), m) && PartServed(s, segment, gone)
  {
    var after, segment := Deleted(Finished(s), gone), s.wal[s.tiering.segment];
    ServesIff(Deleted(s, gone));
    ServesIff(after);
    forall o: nat
      ensures InMemory(after, o)
              <==> && (Behind(segment) <= o < m.end && o in s.log ==> o in s.hot)
                   && (First(segment) <= o < Behind(segment) ==>
                         ServedInside(s.objects - gone, s.cache, s.log, ObjectKey(segment), o))
    {
      assert InMemory(Deleted(s, gone), o);
      RetierMemory(s, m, gone, o);
    }
    if AllInMemory(after) {
      forall o: nat ensures InMemory(after, o) {
      }
    }
  }

  lemma PartHas(segment: seq<Entry>, log: Content, m: Key, o: nat)
    requires Part(segment, log, m)
    ensures Has(segment, o) <==> First(segment) <= o < Behind(segment)
  {
    if First(segment) <= o < Behind(segment) {
      var i := o - First(segment);
      assert IsAt(segment[i], log, First(segment) + i);
    }
  }

  lemma InWalOfSegment(wal: Wal, q: nat, o: nat)
    requires q in wal && Has(wal[q], o)
    ensures InWal(wal, o)
  {
    assert InSegment(wal, q, o);
  }

  lemma RegisterDisk(s: State, m: Key, o: nat)
    requires Retiers(s, m) && OnDisk(s, o)
    ensures var segment := s.wal[s.tiering.segment];
            OnDisk(StepTiering(s, RegisterRange), o)
            <==> (Behind(segment) <= o < m.end && o in s.log ==> InWal(s.wal, o))
  {
    var segment := s.wal[s.tiering.segment];
    var key := ObjectKey(segment);
    FoldRegister(s.manifest, key.start, key.end, key);
    BackedAfter(s.Durable(), Lasting(s, o), map[], m, segment, s.log, o);
    PartHas(segment, s.log, m, o);
    if key.start <= o < key.end {
      InWalOfSegment(s.wal, s.tiering.segment, o);
    }
  }

  lemma RetierDisk(s: State, m: Key, o: nat)
    requires Retiers(s, m) && OnDisk(s, o)
    ensures var q := s.tiering.segment;
            OnDisk(Finished(s), o)
            <==> && (Behind(s.wal[q]) <= o < m.end && o in s.log ==> InWal(s.wal, o))
                 && (First(s.wal[q]) <= o < Behind(s.wal[q]) ==> OutlivesSegment(s, q, o))
  {
    var segment := s.wal[s.tiering.segment];
    var key := ObjectKey(segment);
    FoldRegister(s.manifest, key.start, key.end, key);
    BackedAfter(s.Durable(), Lasting(s, o), map[], m, segment, s.log, o);
    PartHas(segment, s.log, m, o);
    if key.start <= o < key.end {
      PartAnswers(segment, s.log, m, o);
    } else {
      LatestWithout(s.wal, s.tiering.segment, o);
    }
  }

  /** Registering the segment's range leaves a crash without loss exactly when the rest of
      the live range is in the log. */
  lemma ReregisterSurvivesIff(s: State, m: Key)
    requires Retiers(s, m) && Survives(s)
    ensures Survives(StepTiering(s, RegisterRange)) <==> RestInWal(s, Behind(s.wal[s.tiering.segment]), m)
  {
    var s1 := StepTiering(s, RegisterRange);
    SurvivesIff(s);
    SurvivesIff(s1);
    forall o: nat
      ensures OnDisk(s1, o)
              <==> (Behind(s.wal[s.tiering.segment]) <= o < m.end && o in s.log ==> InWal(s.wal, o))
    {
      assert OnDisk(s, o);
      RegisterDisk(s, m, o);
    }
  }

  /** After the whole pass a crash loses nothing, whichever superseded objects are
      collected, exactly when the rest of the live range is in the log, and the segment's
      own object is not superseded or what it holds is in the log elsewhere, too. */
  lemma RetierSurvivesIff(s: State, m: Key)
    requires Retiers(s, m) && Survives(s)
    ensures var q := s.tiering.segment;
            Survives(Finished(s)) <==> RestInWal(s, Behind(s.wal[q]), m) && SegmentDispensable(s, q)
  {
    var after, q := Finished(s), s.tiering.segment;
    SurvivesIff(s);
    SurvivesIff(after);
    forall o: nat
      ensures OnDisk(after, o)
              <==> && (Behind(s.wal[q]) <= o < m.end && o in s.log ==> InWal(s.wal, o))
                   && (First(s.wal[q]) <= o < Behind(s.wal[q]) ==> OutlivesSegment(s, q, o))
    {
      assert OnDisk(s, o);
      RetierDisk(s, m, o);
    }
    if AllOnDisk(after) {
      forall o: nat | First(s.wal[q]) <= o < Behind(s.wal[q]) ensures OutlivesSegment(s, q, o) {
        assert OnDisk(after, o);
      }
    }
  }

  // --- An append that fails --------------------------------------------------------------------

  /** The roll-back of a failed append leaves reads right exactly when the log has no record at
      its offset, or the ranges or the cache still answer with it; an overlapping call or an
      earlier one may have put it there. */
  lemma RollbackServesIff(s: State, id: nat)
    requires Serves(s) && EnabledAppend(s, WalFail(id))
    ensures Serves(StepAppend(s, WalFail(id))) <==> Backed(s.cold, s.objects, s.cache, s.log, s.pending[id].offset)
  {
    var s' := StepAppend(s, WalFail(id));
    ServesIff(s);
    ServesIff(s');
    forall o: nat ensures InMemory(s', o) <==> !AppendHarmsMemory(s, WalFail(id), o) {
      assert InMemory(s, o);
      MemoryWalFail(s, id, o);
    }
    if AllInMemory(s') {
      assert InMemory(s', s.pending[id].offset);
    }
  }

  /** A failed append whose frame stays in the log leaves a crash without harm exactly when it
      was a second append of the record that the log has. */
  lemma KeptSurvivesIff(s: State, id: nat)
    requires Sane(s) && Survives(s) && EnabledAppend(s, Keep(id))
    ensures Survives(StepAppend(s, Keep(id))) <==> IsAt(s.pending[id], s.log, s.pending[id].offset)
  {
    var s' := StepAppend(s, Keep(id));
    SurvivesIff(s);
    SurvivesIff(s');
    forall o: nat ensures OnDisk(s', o) <==> !AppendHarmsDisk(s, Keep(id), o) {
      assert OnDisk(s, o);
      DiskAppend(s, Keep(id), o);
    }
    if AllOnDisk(s') {
      assert OnDisk(s', s.pending[id].offset);
    }
  }
}
