/** No record is lost or changed on its way from memory to object storage, through
    compactions and crashes, as long as records are appended one after the other, each at the
    next offset, no object is above the upload threshold, nothing fails halfway, and
    compactions leave ranges alone that are still in the write-ahead log. */
module TieredSafety {
  import opened Types
  import opened ColdIndex
  import opened TieredStore
  import opened TieredExact
  import opened PartitionLog

  // --- What holds in every reachable state --------------------------------------------

  /** The log has a record at every offset from 0 on. */
  ghost predicate Gapless(log: Content) {
    forall o: nat :: o in log <==> o < |log|
  }

  /** The segment is a run of the log. */
  ghost predicate Dense(log: Content, segment: seq<Entry>) {
    forall i :: 0 <= i < |segment| ==> IsAt(segment[i], log, First(segment) + i)
  }

  /** Where the active segment begins, or would begin */
  function Tail(log: Content, wal: Wal, active: nat): int
    requires active in wal
  {
    |log| - |wal[active]|
  }

  ghost predicate Apart(a: seq<Entry>, b: seq<Entry>) {
    a == [] || b == [] || Behind(a) <= First(b) || Behind(b) <= First(a)
  }

  ghost predicate WalInv(log: Content, wal: Wal, active: nat) {
    && Gapless(log) && active in wal && (wal[active] != [] ==> Behind(wal[active]) == |log|)
    && (forall q :: q in wal ==> Dense(log, wal[q]) && q <= active)
    && (forall q :: q in wal && q != active && wal[q] != [] ==> Behind(wal[q]) <= Tail(log, wal, active))
    && (forall q, r :: q in wal && r in wal && q != r ==> Apart(wal[q], wal[r]))
  }

  lemma DenseBounds(log: Content, segment: seq<Entry>)
    requires Dense(log, segment) && segment != [] && Gapless(log)
    ensures First(segment) < Behind(segment) == First(segment) + |segment| <= |log|
    ensures IsSlice(segment, log, First(segment), Behind(segment))
  {
    assert IsAt(segment[|segment| - 1], log, First(segment) + (|segment| - 1));
  }

  /** Ranges and the log's segments are the same or lie beside each other. */
  ghost predicate ApartFromWal(cold: Cold, wal: Wal) {
    forall q :: q in wal && wal[q] != [] ==>
      First(wal[q]) < Behind(wal[q]) && Beside(cold, First(wal[q]), Behind(wal[q]))
  }

  ghost predicate Below(cold: Cold, bound: int) {
    forall st :: st in cold ==> cold[st].end <= bound
  }

  ghost predicate Good(cold: Cold, objects: Objects, log: Content, wal: Wal, active: nat) {
    && Disjoint(cold) && Sound(cold, objects, log) && ApartFromWal(cold, wal)
    && active in wal && Below(cold, Tail(log, wal, active))
  }

  ghost predicate MemCover(log: Content, hot: map<nat, Record>, cold: Cold) {
    forall o: nat :: o in log ==> o in hot || Covered(cold, o)
  }

  ghost predicate HotRight(log: Content, hot: map<nat, Record>) {
    forall o :: o in hot && o in log ==> hot[o] == log[o]
  }

  ghost predicate Kept(wal: Wal, durable: Cold, o: nat) {
    InWal(wal, o) || Covered(durable, o)
  }

  ghost predicate DurableCover(log: Content, wal: Wal, durable: Cold) {
    forall o: nat {:trigger Kept(wal, durable, o)} :: o in log ==> Kept(wal, durable, o)
  }

  /** Ranges in memory are in the manifest, except the sources of a compaction that the
      manifest knows of and memory does not. */
  ghost predicate MemDurable(cold: Cold, durable: Cold, c: Compaction) {
    forall st :: st in cold ==>
      (st in durable && durable[st] == cold[st]) || (c.MergeRecorded? && cold[st].key in c.sources)
  }

  /** The key names a proper part of a live range. */
  ghost predicate Inside(cold: Cold, k: Key) {
    exists st :: st in cold && st <= k.start < k.end <= cold[st].end && k != Key(st, cold[st].end)
  }

  ghost predicate AllInside(cold: Cold, keys: set<Key>) {
    forall k :: k in keys ==> Inside(cold, k)
  }

  ghost predicate TieringInv(t: Tiering, wal: Wal, active: nat, objects: Objects, log: Content, durable: Cold) {
    !t.NotTiering? ==>
      && !t.Stuck? && t.segment in wal && t.segment != active && wal[t.segment] != []
      && HoldsSlice(objects, ObjectKey(wal[t.segment]), log)
      && (!t.Uploaded? ==> Live(durable, ObjectKey(wal[t.segment])))
  }

  /** The sources have left the log. */
  ghost predicate OffWal(sources: seq<Key>, wal: Wal) {
    forall i, q :: 0 <= i < |sources| && q in wal && wal[q] != [] ==>
      sources[i].end <= First(wal[q]) || Behind(wal[q]) <= sources[i].start
  }

  /** How far the downloads have come, or would have come without any */
  function Reach(sources: seq<Key>, done: nat): nat
    requires done <= |sources| && sources != []
  {
    if done == 0 then sources[0].start else sources[done - 1].end
  }

  ghost predicate Chosen(sources: seq<Key>, cold: Cold, log: Content, wal: Wal, active: nat) {
    && |sources| >= 2 && Contiguous(sources) && AllLive(cold, sources) && OffWal(sources, wal)
    && active in wal && Merged(sources).end <= Tail(log, wal, active)
  }

  ghost predicate CompactionInv(c: Compaction, cold: Cold, durable: Cold, objects: Objects, log: Content, wal: Wal,
                                active: nat) {
    match c
    case NotCompacting => true
    case Downloading(sources, done, data, expected) =>
      && Chosen(sources, cold, log, wal, active) && AllLive(durable, sources)
      && done <= |sources| && expected == Reach(sources, done) && IsSlice(data, log, sources[0].start, expected)
    case MergedUploaded(sources) =>
      Chosen(sources, cold, log, wal, active) && AllLive(durable, sources) && HoldsSlice(objects, Merged(sources), log)
    case MergeRecorded(sources) =>
      && Chosen(sources, cold, log, wal, active) && Live(durable, Merged(sources))
      && HoldsSlice(objects, Merged(sources), log)
    case Replaced(left) =>
      AllInside(cold, Set(left)) && AllInside(durable, Set(left))
  }

  /** Memory and object storage hold the log, */
  ghost predicate DataInv(s: State) {
    && WalInv(s.log, s.wal, s.active)
    && Good(s.cold, s.objects, s.log, s.wal, s.active) && Good(Fold(s.manifest), s.objects, s.log, s.wal, s.active)
    && HotRight(s.log, s.hot) && MemCover(s.log, s.hot, s.cold) && DurableCover(s.log, s.wal, Fold(s.manifest))
  }

  /** tiering and compaction are where they say they are, */
  ghost predicate TaskInv(s: State) {
    && MemDurable(s.cold, Fold(s.manifest), s.compaction) && AllInside(Fold(s.manifest), Orphans(s.manifest))
    && TieringInv(s.tiering, s.wal, s.active, s.objects, s.log, Fold(s.manifest))
    && CompactionInv(s.compaction, s.cold, Fold(s.manifest), s.objects, s.log, s.wal, s.active)
  }

  ghost predicate TierInv(s: State) {
    DataInv(s) && TaskInv(s)
  }

  /** The compaction works, or may still work, on these sources. */
  predicate Working(c: Compaction) {
    c.Downloading? || c.MergedUploaded? || c.MergeRecorded?
  }

  /** The compactions that wait have live sources behind those of the one at work, */
  ghost predicate Waits(plan: seq<Key>, c: Compaction, cold: Cold, durable: Cold, log: Content, wal: Wal, active: nat) {
    && Chosen(plan, cold, log, wal, active) && AllLive(durable, plan)
    && (Working(c) && c.sources != [] ==> Merged(c.sources).end <= plan[0].start)
  }

  ghost predicate StillWaits(s: State, plan: seq<Key>) {
    Waits(plan, s.compaction, s.cold, Fold(s.manifest), s.log, s.wal, s.active)
  }

  ghost predicate InOrder(plans: seq<seq<Key>>) {
    && (forall i :: 0 <= i < |plans| ==> plans[i] != [])
    && (forall i, j :: 0 <= i < j < |plans| ==> Merged(plans[i]).end <= plans[j][0].start)
  }

  ghost predicate PlansInv(s: State) {
    && InOrder(s.plans)
    && forall i :: 0 <= i < |s.plans| ==> StillWaits(s, s.plans[i])
  }

  /** what cold reads have found is the log's, */
  ghost predicate CacheInv(s: State) {
    CacheRight(s.cache, s.log) && forall id :: id in s.fetched ==> RunOf(s.fetched[id].run, s.log, s.fetched[id].offset)
  }

  ghost predicate PutLast(log: Content, hot: map<nat, Record>, e: Entry) {
    e.offset == |log| && e.offset in hot && hot[e.offset] == e.record
  }

  /** and at most one record is being appended, at the end of the log. */
  ghost predicate FlowInv(s: State) {
    && !s.torn && s.kept == {}
    && (forall o :: o in s.hot ==> o in s.log || IsPending(s, Entry(o, s.hot[o])))
    && (forall id :: id in s.pending ==> PutLast(s.log, s.hot, s.pending[id]))
    && (forall id, other :: id in s.pending && other in s.pending ==> id == other)
  }

  ghost predicate Inv(s: State) {
    Sane(s) && TierInv(s) && PlansInv(s) && CacheInv(s) && FlowInv(s)
  }

  lemma DenseIsLog(log: Content, segment: seq<Entry>, e: Entry)
    requires Dense(log, segment) && e in segment
    ensures IsAt(e, log, e.offset)
  {
    var i :| 0 <= i < |segment| && segment[i] == e;
    assert IsAt(segment[i], log, First(segment) + i);
  }

  /** Where each segment is a run of the log, the log's records are also the latest ones. */
  lemma LatestIsLog(log: Content, wal: Wal, active: nat, o: nat)
    requires WalInv(log, wal, active) && InWal(wal, o)
    ensures IsLatest(wal, log, o)
  {
    HotOfContents(wal, o);
    var q: nat :| IsNewest(wal, q, o);
    LatestAt(wal, q, o);
    EntriesContents(wal[q], o);
    DenseIsLog(log, wal[q], Entry(o, Entries(wal[q])[o]));
  }

  /** In such a state, reads serve the log, */
  lemma InvServes(s: State)
    requires Inv(s)
    ensures Serves(s)
  {
    forall o: nat ensures InMemory(s, o) {
      ReadsLog(s.cold, s.objects, s.cache, s.log, o);
    }
    ServesIff(s);
  }

  lemma DeleteKeepsGood(cold: Cold, objects: Objects, gone: set<Key>, log: Content, wal: Wal, active: nat)
    requires Good(cold, objects, log, wal, active) && AllInside(cold, gone)
    ensures Good(cold, objects - gone, log, wal, active)
  {
  }

  lemma DurableAnswers(s: State, o: nat)
    requires DataInv(s) && AllInside(Fold(s.manifest), Orphans(s.manifest)) && !InWal(s.wal, o)
    ensures Backed(Fold(s.manifest), Lasting(s, o), map[], s.log, o)
  {
    var durable := Fold(s.manifest);
    DeleteKeepsGood(durable, s.objects, Orphans(s.manifest), s.log, s.wal, s.active);
    assert o in s.log ==> Kept(s.wal, durable, o);
    ReadsLog(durable, Lasting(s, o), map[], s.log, o);
  }

  /** and would after a crash. */
  lemma InvSurvives(s: State)
    requires Inv(s)
    ensures Survives(s)
  {
    forall o: nat ensures OnDisk(s, o) {
      if InWal(s.wal, o) {
        LatestIsLog(s.log, s.wal, s.active, o);
      } else {
        DurableAnswers(s, o);
      }
    }
    SurvivesIff(s);
  }

  // --- Ranges come and go ------------------------------------------------------------------

  lemma InsertKeepsGood(cold: Cold, objects: Objects, log: Content, wal: Wal, active: nat, q: nat)
    requires Good(cold, objects, log, wal, active) && WalInv(log, wal, active)
    requires q in wal && q != active && wal[q] != [] && HoldsSlice(objects, ObjectKey(wal[q]), log)
    ensures Good(InsertCold(cold, First(wal[q]), Behind(wal[q]), ObjectKey(wal[q])), objects, log, wal, active)
  {
    var start, end, key := First(wal[q]), Behind(wal[q]), ObjectKey(wal[q]);
    var after := InsertCold(cold, start, end, key);
    assert forall st :: st in cold ==> SoundRange(st, cold[st], objects, log);
    InsertKeepsDisjoint(cold, start, end, key);
    forall r | r in wal && wal[r] != [] ensures Beside(after, First(wal[r]), Behind(wal[r])) {
      assert Beside(cold, First(wal[r]), Behind(wal[r]));
    }
  }

  lemma InsertKeepsInside(cold: Cold, start: nat, end: nat, key: Key, k: Key)
    requires Inside(cold, k) && Beside(cold, start, end) && start < end
    ensures Inside(InsertCold(cold, start, end, key), k)
  {
    var t :| t in cold && t <= k.start < k.end <= cold[t].end && k != Key(t, cold[t].end);
    assert InsertCold(cold, start, end, key)[t].end == cold[t].end;
  }

  /** The merged range of sources that have left the log lies beside every segment. */
  lemma MergedOffWal(sources: seq<Key>, wal: Wal, q: nat)
    requires Contiguous(sources) && OffWal(sources, wal) && q in wal && wal[q] != [] && First(wal[q]) < Behind(wal[q])
    ensures Merged(sources).end <= First(wal[q]) || Behind(wal[q]) <= Merged(sources).start
  {
    var m := Merged(sources);
    if First(wal[q]) < m.end && m.start < Behind(wal[q]) {
      var o := if First(wal[q]) < m.start then m.start else First(wal[q]);
      SourceBounds(sources, |sources| - 1);
      var i := SomeSource(sources, o, |sources|);
      assert false;
    }
  }

  lemma MergedApart(cold: Cold, wal: Wal, sources: seq<Key>)
    requires ApartFromWal(cold, wal) && Contiguous(sources) && OffWal(sources, wal)
    ensures ApartFromWal(ReplaceCold(cold, Merged(sources).start, Merged(sources).end, Merged(sources)), wal)
  {
    var m := Merged(sources);
    forall q | q in wal && wal[q] != []
      ensures Beside(ReplaceCold(cold, m.start, m.end, m), First(wal[q]), Behind(wal[q]))
    {
      assert First(wal[q]) < Behind(wal[q]) && Beside(cold, First(wal[q]), Behind(wal[q]));
      MergedOffWal(sources, wal, q);
    }
  }

  lemma ReplaceKeepsSound(cold: Cold, objects: Objects, log: Content, m: Key)
    requires Sound(cold, objects, log) && m.start < m.end && HoldsSlice(objects, m, log)
    ensures Sound(ReplaceCold(cold, m.start, m.end, m), objects, log)
  {
  }

  lemma SoundRises(cold: Cold, objects: Objects, log: Content)
    requires Sound(cold, objects, log)
    ensures forall st :: st in cold ==> st < cold[st].end
  {
    assert forall st :: st in cold ==> SoundRange(st, cold[st], objects, log);
  }

  lemma ReplaceKeepsGood(cold: Cold, objects: Objects, log: Content, wal: Wal, active: nat, sources: seq<Key>)
    requires Good(cold, objects, log, wal, active) && Contiguous(sources) && AllLive(cold, sources)
    requires OffWal(sources, wal)
    requires HoldsSlice(objects, Merged(sources), log) && Merged(sources).end <= Tail(log, wal, active)
    ensures Merged(sources).start < Merged(sources).end && Within(cold, Merged(sources).start, Merged(sources).end)
    ensures var m := Merged(sources); Good(ReplaceCold(cold, m.start, m.end, m), objects, log, wal, active)
  {
    var m := Merged(sources);
    SourceBounds(sources, 0);
    SoundRises(cold, objects, log);
    SourcesFill(cold, sources);
    ReplaceKeepsDisjoint(cold, m.start, m.end, m);
    ReplaceKeepsSound(cold, objects, log, m);
    MergedApart(cold, wal, sources);
  }

  /** A range in the span of live sources is one of them. */
  lemma InSpanIsSource(cold: Cold, sources: seq<Key>, st: nat) returns (i: nat)
    requires Disjoint(cold) && Contiguous(sources) && AllLive(cold, sources)
    requires st in cold && Merged(sources).start <= st < Merged(sources).end
    ensures i < |sources| && st == sources[i].start && cold[st] == Range(sources[i].end, sources[i])
  {
    i := SomeSource(sources, st, |sources|);
    assert Live(cold, sources[i]);
  }

  /** A source is a proper part of the merged range. */
  lemma SourceInside(cold: Cold, sources: seq<Key>, i: nat)
    requires |sources| >= 2 && Contiguous(sources) && i < |sources| && Live(cold, Merged(sources))
    ensures Inside(cold, sources[i])
  {
    SourceBounds(sources, i);
    var m := Merged(sources);
    assert sources[i] != Key(m.start, m.end);
    assert m.start in cold && m.start <= sources[i].start < sources[i].end <= cold[m.start].end;
  }

  lemma ReplaceKeepsInside(cold: Cold, sources: seq<Key>, k: Key)
    requires Disjoint(cold) && |sources| >= 2 && Contiguous(sources) && AllLive(cold, sources) && Inside(cold, k)
    requires Within(cold, Merged(sources).start, Merged(sources).end)
    ensures Inside(ReplaceCold(cold, Merged(sources).start, Merged(sources).end, Merged(sources)), k)
  {
    var m := Merged(sources);
    var after := ReplaceCold(cold, m.start, m.end, m);
    SourceBounds(sources, 0);
    var t :| t in cold && t <= k.start < k.end <= cold[t].end && k != Key(t, cold[t].end);
    if m.start <= t < m.end {
      var i := InSpanIsSource(cold, sources, t);
      SourceBounds(sources, i);
      assert m.start in after && after[m.start].end == m.end;
      assert k != m;
    } else {
      assert t in after && after[t] == cold[t];
    }
  }

  // --- Appending -----------------------------------------------------------------------------

  lemma InvPut(s: State, id: nat, e: Entry)
    requires TierInv(s) && EnabledAppend(s, Put(id, e)) && e.offset == |s.log|
    ensures TierInv(StepAppend(s, Put(id, e)))
  {
  }

  lemma InvWalFail(s: State, id: nat)
    requires TierInv(s) && EnabledAppend(s, WalFail(id)) && s.pending[id].offset == |s.log|
    ensures TierInv(StepAppend(s, WalFail(id)))
  {
  }

  function Longer(log: Content, record: Record): Content {
    log[|log| := record]
  }

  function GrownWal(wal: Wal, active: nat, e: Entry): Wal
    requires active in wal
  {
    wal[active := wal[active] + [e]]
  }

  /** The log and its active segment grow by one record. */
  lemma GrowKeepsGood(cold: Cold, objects: Objects, log: Content, wal: Wal, active: nat, record: Record)
    requires Good(cold, objects, log, wal, active) && WalInv(log, wal, active)
    ensures Good(cold, objects, Longer(log, record), GrownWal(wal, active, Entry(|log|, record)), active)
  {
  }

  lemma GrowKeepsMemory(log: Content, hot: map<nat, Record>, cold: Cold, record: Record)
    requires HotRight(log, hot) && MemCover(log, hot, cold) && |log| in hot && hot[|log|] == record
    ensures HotRight(Longer(log, record), hot) && MemCover(Longer(log, record), hot, cold)
  {
  }

  lemma GrowKeepsDense(log: Content, wal: Wal, active: nat, record: Record, q: nat)
    requires WalInv(log, wal, active) && q in wal
    ensures Dense(Longer(log, record), GrownWal(wal, active, Entry(|log|, record))[q])
  {
    if q == active && wal[active] != [] {
      DenseBounds(log, wal[active]);
    }
  }

  /** The active segment begins behind all others. */
  lemma GrowKeepsApart(log: Content, wal: Wal, active: nat, record: Record, q: nat, r: nat)
    requires WalInv(log, wal, active) && q in wal && r in wal && q != r
    ensures var wal' := GrownWal(wal, active, Entry(|log|, record)); Apart(wal'[q], wal'[r])
  {
    assert Apart(wal[q], wal[r]);
    if (q == active || r == active) && wal[active] != [] {
      DenseBounds(log, wal[active]);
    }
  }

  lemma GrowKeepsWal(log: Content, wal: Wal, active: nat, record: Record)
    requires WalInv(log, wal, active)
    ensures WalInv(Longer(log, record), GrownWal(wal, active, Entry(|log|, record)), active)
  {
    var wal' := GrownWal(wal, active, Entry(|log|, record));
    forall q | q in wal' ensures Dense(Longer(log, record), wal'[q]) && q <= active {
      GrowKeepsDense(log, wal, active, record, q);
    }
    forall q, r | q in wal' && r in wal' && q != r ensures Apart(wal'[q], wal'[r]) {
      GrowKeepsApart(log, wal, active, record, q, r);
    }
  }

  lemma GrowKeepsCover(log: Content, wal: Wal, active: nat, record: Record, durable: Cold)
    requires WalInv(log, wal, active) && DurableCover(log, wal, durable)
    ensures DurableCover(Longer(log, record), GrownWal(wal, active, Entry(|log|, record)), durable)
  {
    var wal' := GrownWal(wal, active, Entry(|log|, record));
    forall o: nat | o in Longer(log, record) ensures Kept(wal', durable, o) {
      assert o in log ==> Kept(wal, durable, o);
      InWalGrown(wal, active, Entry(|log|, record), o);
    }
  }

  lemma GrowKeepsChosen(sources: seq<Key>, cold: Cold, log: Content, wal: Wal, active: nat, record: Record)
    requires Chosen(sources, cold, log, wal, active) && WalInv(log, wal, active)
    ensures Chosen(sources, cold, Longer(log, record), GrownWal(wal, active, Entry(|log|, record)), active)
  {
    var wal' := GrownWal(wal, active, Entry(|log|, record));
    forall i, q | 0 <= i < |sources| && q in wal' && wal'[q] != []
      ensures sources[i].end <= First(wal'[q]) || Behind(wal'[q]) <= sources[i].start
    {
      SourceBounds(sources, i);
      if q == active && wal[active] != [] {
        DenseBounds(log, wal[active]);
      }
    }
  }

  lemma GrowKeepsCompaction(c: Compaction, cold: Cold, durable: Cold, objects: Objects, log: Content, wal: Wal,
                            active: nat, record: Record)
    requires CompactionInv(c, cold, durable, objects, log, wal, active) && WalInv(log, wal, active)
    ensures CompactionInv(c, cold, durable, objects, Longer(log, record), GrownWal(wal, active, Entry(|log|, record)),
                          active)
  {
    if Working(c) {
      GrowKeepsChosen(c.sources, cold, log, wal, active, record);
    }
  }

  lemma SliceLonger(objects: Objects, k: Key, log: Content, record: Record)
    requires Gapless(log) && HoldsSlice(objects, k, log)
    ensures HoldsSlice(objects, k, Longer(log, record))
  {
  }

  lemma GrowKeepsTiering(t: Tiering, wal: Wal, active: nat, objects: Objects, log: Content, durable: Cold,
                         record: Record)
    requires TieringInv(t, wal, active, objects, log, durable) && active in wal && Gapless(log)
    ensures TieringInv(t, GrownWal(wal, active, Entry(|log|, record)), active, objects,
                       Longer(log, record), durable)
  {
    if t.Uploaded? || t.Registered? || t.Flipped? {
      SliceLonger(objects, ObjectKey(wal[t.segment]), log, record);
    }
  }

  /** The state after a new record was made durable */
  function Grown(s: State, record: Record): State
    requires s.active in s.wal
  {
    s.(log := Longer(s.log, record), wal := GrownWal(s.wal, s.active, Entry(|s.log|, record)), pending := map[])
  }

  lemma RangesGrown(s: State, record: Record)
    requires DataInv(s)
    ensures var s' := Grown(s, record);
            && Good(s'.cold, s'.objects, s'.log, s'.wal, s'.active)
            && Good(Fold(s'.manifest), s'.objects, s'.log, s'.wal, s'.active)
  {
    GrowKeepsGood(s.cold, s.objects, s.log, s.wal, s.active, record);
    GrowKeepsGood(Fold(s.manifest), s.objects, s.log, s.wal, s.active, record);
  }

  lemma CoverGrown(s: State, record: Record)
    requires DataInv(s) && |s.log| in s.hot && s.hot[|s.log|] == record
    ensures var s' := Grown(s, record);
            && WalInv(s'.log, s'.wal, s'.active) && HotRight(s'.log, s'.hot)
            && MemCover(s'.log, s'.hot, s'.cold) && DurableCover(s'.log, s'.wal, Fold(s'.manifest))
  {
    GrowKeepsMemory(s.log, s.hot, s.cold, record);
    GrowKeepsWal(s.log, s.wal, s.active, record);
    GrowKeepsCover(s.log, s.wal, s.active, record, Fold(s.manifest));
  }

  lemma DataGrown(s: State, record: Record)
    requires DataInv(s) && |s.log| in s.hot && s.hot[|s.log|] == record
    ensures DataInv(Grown(s, record))
  {
    RangesGrown(s, record);
    CoverGrown(s, record);
  }

  lemma TaskGrown(s: State, record: Record)
    requires TaskInv(s) && WalInv(s.log, s.wal, s.active)
    ensures TaskInv(Grown(s, record))
  {
    GrowKeepsTiering(s.tiering, s.wal, s.active, s.objects, s.log, Fold(s.manifest), record);
    GrowKeepsCompaction(s.compaction, s.cold, Fold(s.manifest), s.objects, s.log, s.wal, s.active, record);
  }

  lemma WalOkState(s: State, id: nat)
    requires FlowInv(s) && EnabledAppend(s, WalOk(id))
    ensures StepAppend(s, WalOk(id)) == Grown(s, s.pending[id].record)
  {
    assert PutLast(s.log, s.hot, s.pending[id]);
    assert s.pending - {id} == map[];
  }

  lemma InvWalOk(s: State, id: nat)
    requires Inv(s) && EnabledAppend(s, WalOk(id))
    ensures TierInv(StepAppend(s, WalOk(id)))
  {
    assert PutLast(s.log, s.hot, s.pending[id]);
    DataGrown(s, s.pending[id].record);
    TaskGrown(s, s.pending[id].record);
    WalOkState(s, id);
  }

  // --- Log segments come and go ----------------------------------------------------------------

  lemma NextKeepsWal(log: Content, wal: Wal, active: nat)
    requires WalInv(log, wal, active)
    ensures WalInv(log, wal[active + 1 := []], active + 1)
  {
  }

  lemma NextKeepsCover(log: Content, wal: Wal, active: nat, durable: Cold)
    requires WalInv(log, wal, active) && DurableCover(log, wal, durable)
    ensures DurableCover(log, wal[active + 1 := []], durable)
  {
    var wal' := wal[active + 1 := []];
    forall o: nat | o in log ensures Kept(wal', durable, o) {
      assert Kept(wal, durable, o);
      LatestNext(wal, active + 1, o);
    }
  }

  lemma NextKeepsTiering(t: Tiering, wal: Wal, active: nat, objects: Objects, log: Content, durable: Cold)
    requires TieringInv(t, wal, active, objects, log, durable) && IsLast(wal, active)
    ensures TieringInv(t, wal[active + 1 := []], active + 1, objects, log, durable)
  {
  }

  lemma NextKeepsChosen(sources: seq<Key>, cold: Cold, log: Content, wal: Wal, active: nat)
    requires Chosen(sources, cold, log, wal, active) && IsLast(wal, active)
    ensures Chosen(sources, cold, log, wal[active + 1 := []], active + 1)
  {
  }

  lemma NextKeepsCompaction(c: Compaction, cold: Cold, durable: Cold, objects: Objects, log: Content, wal: Wal,
                            active: nat)
    requires CompactionInv(c, cold, durable, objects, log, wal, active) && IsLast(wal, active)
    ensures CompactionInv(c, cold, durable, objects, log, wal[active + 1 := []], active + 1)
  {
    if Working(c) {
      NextKeepsChosen(c.sources, cold, log, wal, active);
    }
  }

  lemma NextKeepsGood(cold: Cold, objects: Objects, log: Content, wal: Wal, active: nat)
    requires Good(cold, objects, log, wal, active) && WalInv(log, wal, active)
    ensures Good(cold, objects, log, wal[active + 1 := []], active + 1)
  {
  }

  lemma TaskNext(s: State)
    requires WalInv(s.log, s.wal, s.active) && TaskInv(s)
    ensures TaskInv(s.(wal := s.wal[s.active + 1 := []], active := s.active + 1))
  {
    assert IsLast(s.wal, s.active);
    NextKeepsTiering(s.tiering, s.wal, s.active, s.objects, s.log, Fold(s.manifest));
    NextKeepsCompaction(s.compaction, s.cold, Fold(s.manifest), s.objects, s.log, s.wal, s.active);
  }

  lemma SealState(s: State)
    requires EnabledAppend(s, Seal)
    ensures StepAppend(s, Seal) == s.(wal := s.wal[s.active + 1 := []], active := s.active + 1)
  {
  }

  lemma CoverNext(s: State)
    requires DataInv(s)
    ensures DurableCover(s.log, s.wal[s.active + 1 := []], Fold(s.manifest))
  {
    NextKeepsCover(s.log, s.wal, s.active, Fold(s.manifest));
  }

  lemma DataFrom(s: State, wal: Wal, active: nat)
    requires WalInv(s.log, wal, active) && DurableCover(s.log, wal, Fold(s.manifest))
    requires Good(s.cold, s.objects, s.log, wal, active) && Good(Fold(s.manifest), s.objects, s.log, wal, active)
    requires HotRight(s.log, s.hot) && MemCover(s.log, s.hot, s.cold)
    ensures DataInv(s.(wal := wal, active := active))
  {
  }

  lemma RangesNext(s: State)
    requires DataInv(s)
    ensures Good(s.cold, s.objects, s.log, s.wal[s.active + 1 := []], s.active + 1)
    ensures Good(Fold(s.manifest), s.objects, s.log, s.wal[s.active + 1 := []], s.active + 1)
  {
    NextKeepsGood(s.cold, s.objects, s.log, s.wal, s.active);
    NextKeepsGood(Fold(s.manifest), s.objects, s.log, s.wal, s.active);
  }

  lemma WalNext(s: State)
    requires DataInv(s)
    ensures WalInv(s.log, s.wal[s.active + 1 := []], s.active + 1)
  {
    NextKeepsWal(s.log, s.wal, s.active);
  }

  lemma DataNext(s: State)
    requires DataInv(s)
    ensures DataInv(s.(wal := s.wal[s.active + 1 := []], active := s.active + 1))
  {
    RangesNext(s);
    CoverNext(s);
    WalNext(s);
    DataFrom(s, s.wal[s.active + 1 := []], s.active + 1);
  }

  lemma InvNext(s: State, s': State)
    requires TierInv(s) && s' == s.(wal := s.wal[s.active + 1 := []], active := s.active + 1)
    ensures TierInv(s')
  {
    DataNext(s);
    TaskNext(s);
  }

  lemma InvSeal(s: State)
    requires TierInv(s) && EnabledAppend(s, Seal)
    ensures TierInv(StepAppend(s, Seal))
  {
    SealState(s);
    InvNext(s, StepAppend(s, Seal));
  }

  lemma RemoveKeepsWal(log: Content, wal: Wal, active: nat, q: nat)
    requires WalInv(log, wal, active) && q in wal && q != active
    ensures WalInv(log, wal - {q}, active)
  {
  }

  lemma LiveCoversSegment(log: Content, segment: seq<Entry>, durable: Cold, o: nat)
    requires Gapless(log) && Dense(log, segment) && Live(durable, ObjectKey(segment)) && Has(segment, o)
    ensures Covers(durable, First(segment), o)
  {
    var i :| 0 <= i < |segment| && segment[i].offset == o;
    assert IsAt(segment[i], log, First(segment) + i);
    DenseBounds(log, segment);
  }

  lemma KeptWithout(log: Content, wal: Wal, durable: Cold, q: nat, o: nat)
    requires Gapless(log) && q in wal && Dense(log, wal[q]) && InWal(wal, o)
    requires wal[q] == [] || Live(durable, ObjectKey(wal[q]))
    ensures Kept(wal - {q}, durable, o)
  {
    var r :| InSegment(wal, r, o);
    if r != q {
      assert InSegment(wal - {q}, r, o);
    } else {
      LiveCoversSegment(log, wal[q], durable, o);
    }
  }

  /** A segment may go once its range is live in the manifest, or if it is empty. */
  lemma RemoveKeepsCover(log: Content, wal: Wal, active: nat, durable: Cold, q: nat)
    requires WalInv(log, wal, active) && DurableCover(log, wal, durable) && q in wal && q != active
    requires wal[q] == [] || Live(durable, ObjectKey(wal[q]))
    ensures DurableCover(log, wal - {q}, durable)
  {
    forall o: nat | o in log ensures Kept(wal - {q}, durable, o) {
      assert Kept(wal, durable, o);
      if InWal(wal, o) {
        KeptWithout(log, wal, durable, q, o);
      }
    }
  }

  lemma RemoveKeepsGood(cold: Cold, objects: Objects, log: Content, wal: Wal, active: nat, q: nat)
    requires Good(cold, objects, log, wal, active) && q != active
    ensures Good(cold, objects, log, wal - {q}, active)
  {
  }

  lemma DataRemove(s: State, q: nat)
    requires DataInv(s) && q in s.wal && q != s.active
    requires s.wal[q] == [] || Live(Fold(s.manifest), ObjectKey(s.wal[q]))
    ensures DataInv(s.(wal := s.wal - {q}, tiering := NotTiering))
  {
    RemoveKeepsWal(s.log, s.wal, s.active, q);
    RemoveKeepsCover(s.log, s.wal, s.active, Fold(s.manifest), q);
    RemoveKeepsGood(s.cold, s.objects, s.log, s.wal, s.active, q);
    RemoveKeepsGood(Fold(s.manifest), s.objects, s.log, s.wal, s.active, q);
  }

  lemma TaskRemove(s: State, q: nat)
    requires TaskInv(s) && q in s.wal && q != s.active
    ensures TaskInv(s.(wal := s.wal - {q}, tiering := NotTiering))
  {
  }

  lemma InvReclaim(s: State)
    requires TierInv(s) && EnabledTiering(s, Reclaim)
    ensures TierInv(StepTiering(s, Reclaim))
  {
    DataRemove(s, s.tiering.segment);
    TaskRemove(s, s.tiering.segment);
  }

  lemma InvReclaimEmpty(s: State, q: nat)
    requires TierInv(s) && EnabledTiering(s, ReclaimEmpty(q))
    ensures TierInv(StepTiering(s, ReclaimEmpty(q)))
  {
    DataRemove(s, q);
    TaskRemove(s, q);
  }

  // --- Tiering -----------------------------------------------------------------------------------

  lemma SegmentIsSlice(log: Content, wal: Wal, active: nat, q: nat)
    requires WalInv(log, wal, active) && q in wal && wal[q] != []
    ensures IsSlice(wal[q], log, First(wal[q]), Behind(wal[q]))
  {
    DenseBounds(log, wal[q]);
  }

  lemma DataPut(s: State, k: Key, data: seq<Entry>)
    requires DataInv(s) && IsSlice(data, s.log, k.start, k.end)
    ensures DataInv(s.(objects := s.objects[k := data]))
  {
  }

  lemma TaskPut(s: State, k: Key, data: seq<Entry>)
    requires TaskInv(s) && IsSlice(data, s.log, k.start, k.end)
    ensures TaskInv(s.(objects := s.objects[k := data]))
  {
  }

  lemma TaskUploaded(s: State, q: nat)
    requires TaskInv(s) && q in s.wal && q != s.active && s.wal[q] != []
    requires HoldsSlice(s.objects, ObjectKey(s.wal[q]), s.log)
    ensures TaskInv(s.(tiering := Uploaded(q)))
  {
  }

  lemma InvUpload(s: State, q: nat, bytes: nat)
    requires TierInv(s) && EnabledTiering(s, Upload(q, bytes)) && bytes <= s.config.threshold
    ensures TierInv(StepTiering(s, Upload(q, bytes)))
  {
    var segment := s.wal[q];
    var s1 := s.(objects := s.objects[ObjectKey(segment) := segment]);
    SegmentIsSlice(s.log, s.wal, s.active, q);
    DataPut(s, ObjectKey(segment), segment);
    TaskPut(s, ObjectKey(segment), segment);
    TaskUploaded(s1, q);
  }

  /** An upload that breaks off where there was no object changes nothing. */
  lemma BrokenState(s: State, q: nat)
    requires EnabledTiering(s, BreakUpload(q)) && ObjectKey(s.wal[q]) !in s.objects
    ensures StepTiering(s, BreakUpload(q)) == s
  {
    assert s.objects - {ObjectKey(s.wal[q])} == s.objects;
  }

  /** Inserting the range of a segment that is still in the log leaves the sources of a
      compaction, and what they were merged into, alone. */
  lemma InsertKeepsLive(cold: Cold, sources: seq<Key>, wal: Wal, q: nat)
    requires Contiguous(sources) && OffWal(sources, wal) && q in wal && wal[q] != [] && First(wal[q]) < Behind(wal[q])
    ensures var after := InsertCold(cold, First(wal[q]), Behind(wal[q]), ObjectKey(wal[q]));
            && (AllLive(cold, sources) ==> AllLive(after, sources))
            && (Live(cold, Merged(sources)) ==> Live(after, Merged(sources)))
  {
  }

  lemma InsertKeepsAllInside(cold: Cold, start: nat, end: nat, key: Key, keys: set<Key>)
    requires AllInside(cold, keys) && Beside(cold, start, end) && start < end
    ensures AllInside(InsertCold(cold, start, end, key), keys)
  {
    forall k | k in keys ensures Inside(InsertCold(cold, start, end, key), k) {
      InsertKeepsInside(cold, start, end, key, k);
    }
  }

  /** A segment's range becomes live in memory, or in the manifest, or in both. */
  lemma InsertKeepsCompaction(c: Compaction, cold: Cold, durable: Cold, objects: Objects, log: Content, wal: Wal,
                              active: nat, q: nat)
    requires CompactionInv(c, cold, durable, objects, log, wal, active)
    requires q in wal && wal[q] != [] && First(wal[q]) < Behind(wal[q])
    requires Beside(cold, First(wal[q]), Behind(wal[q])) && Beside(durable, First(wal[q]), Behind(wal[q]))
    ensures var key := ObjectKey(wal[q]);
            && CompactionInv(c, InsertCold(cold, key.start, key.end, key), durable, objects, log, wal, active)
            && CompactionInv(c, cold, InsertCold(durable, key.start, key.end, key), objects, log, wal, active)
  {
    var start, end, key := First(wal[q]), Behind(wal[q]), ObjectKey(wal[q]);
    if c.Replaced? {
      InsertKeepsAllInside(cold, start, end, key, Set(c.left));
      InsertKeepsAllInside(durable, start, end, key, Set(c.left));
    } else if Working(c) {
      InsertKeepsLive(cold, c.sources, wal, q);
      InsertKeepsLive(durable, c.sources, wal, q);
    }
  }

  lemma InsertKeepsKept(log: Content, wal: Wal, durable: Cold, start: nat, end: nat, key: Key)
    requires DurableCover(log, wal, durable) && Beside(durable, start, end) && start < end
    ensures DurableCover(log, wal, InsertCold(durable, start, end, key))
  {
    forall o: nat | o in log ensures Kept(wal, InsertCold(durable, start, end, key), o) {
      assert Kept(wal, durable, o);
      InsertKeepsCover(durable, start, end, key, o);
    }
  }

  /** What memory holds is still in the manifest after a range was registered, */
  lemma RegisterKeepsDurable(cold: Cold, durable: Cold, c: Compaction, objects: Objects, log: Content, start: nat,
                             end: nat)
    requires MemDurable(cold, durable, c) && Beside(cold, start, end) && start < end && Sound(cold, objects, log)
    ensures MemDurable(cold, InsertCold(durable, start, end, Key(start, end)), c)
  {
  }

  lemma InvRegister(s: State)
    requires TierInv(s) && EnabledTiering(s, RegisterRange) && !s.torn
    ensures TierInv(StepTiering(s, RegisterRange))
  {
    var q := s.tiering.segment;
    var segment, durable := s.wal[q], Fold(s.manifest);
    var start, end, key := First(segment), Behind(segment), ObjectKey(segment);
    FoldRegister(s.manifest, start, end, key);
    assert Beside(s.cold, start, end) && Beside(durable, start, end);
    InsertKeepsGood(durable, s.objects, s.log, s.wal, s.active, q);
    InsertKeepsKept(s.log, s.wal, durable, start, end, key);
    RegisterKeepsDurable(s.cold, durable, s.compaction, s.objects, s.log, start, end);
    InsertKeepsAllInside(durable, start, end, key, Orphans(s.manifest));
    InsertKeepsCompaction(s.compaction, s.cold, durable, s.objects, s.log, s.wal, s.active, q);
  }

  lemma FlipKeepsCover(log: Content, hot: map<nat, Record>, cold: Cold, start: nat, end: nat, key: Key)
    requires MemCover(log, hot, cold) && Beside(cold, start, end) && start < end
    ensures MemCover(log, Without(hot, start, end), InsertCold(cold, start, end, key))
  {
    forall o: nat | o in log ensures o in Without(hot, start, end) || Covered(InsertCold(cold, start, end, key), o) {
      InsertKeepsCover(cold, start, end, key, o);
    }
  }

  lemma DataFlip(s: State)
    requires TierInv(s) && EnabledTiering(s, Flip)
    ensures DataInv(StepTiering(s, Flip))
  {
    var key := ObjectKey(s.wal[s.tiering.segment]);
    assert Beside(s.cold, key.start, key.end);
    InsertKeepsGood(s.cold, s.objects, s.log, s.wal, s.active, s.tiering.segment);
    FlipKeepsCover(s.log, s.hot, s.cold, key.start, key.end, key);
  }

  lemma TaskFlip(s: State)
    requires TierInv(s) && EnabledTiering(s, Flip)
    ensures TaskInv(StepTiering(s, Flip))
  {
    var key := ObjectKey(s.wal[s.tiering.segment]);
    assert Beside(s.cold, key.start, key.end) && Beside(Fold(s.manifest), key.start, key.end);
    InsertKeepsCompaction(s.compaction, s.cold, Fold(s.manifest), s.objects, s.log, s.wal, s.active, s.tiering.segment);
  }

  lemma InvFlip(s: State)
    requires TierInv(s) && EnabledTiering(s, Flip)
    ensures TierInv(StepTiering(s, Flip))
  {
    DataFlip(s);
    TaskFlip(s);
  }

  lemma InvLeave(s: State)
    requires TierInv(s) && EnabledTiering(s, Leave)
    ensures TierInv(StepTiering(s, Leave))
  {
  }

  // --- Compaction ----------------------------------------------------------------------------------

  lemma LiveHoldsSlice(cold: Cold, objects: Objects, log: Content, k: Key)
    requires Sound(cold, objects, log) && Live(cold, k)
    ensures k.start < k.end && HoldsSlice(objects, k, log)
  {
    assert SoundRange(k.start, cold[k.start], objects, log);
  }

  /** A planned run of live ranges can be merged. */
  lemma PlannedIsChosen(s: State, plan: seq<Key>)
    requires TierInv(s) && s.compaction.NotCompacting?
    requires |plan| >= 2 && Adjacent(plan) && AllLive(s.cold, plan) && OffWal(plan, s.wal)
    ensures Chosen(plan, s.cold, s.log, s.wal, s.active) && AllLive(Fold(s.manifest), plan)
  {
    forall i | 0 <= i < |plan| ensures plan[i].start < plan[i].end && Live(Fold(s.manifest), plan[i]) {
      assert Live(s.cold, plan[i]);
      LiveHoldsSlice(s.cold, s.objects, s.log, plan[i]);
    }
    assert Live(s.cold, plan[|plan| - 1]);
  }

  lemma SliceGrows(front: seq<Entry>, last: seq<Entry>, log: Content, a: nat, b: nat, c: nat)
    requires IsSlice(front, log, a, b) && IsSlice(last, log, b, c)
    ensures IsSlice(front + last, log, a, c)
  {
    var both := front + last;
    forall i | 0 <= i < |both| ensures IsAt(both[i], log, a + i) {
      if i < |front| {
        assert IsAt(front[i], log, a + i);
      } else {
        assert IsAt(last[i - |front|], log, b + (i - |front|));
      }
    }
  }

  lemma SliceEnds(data: seq<Entry>, log: Content, a: nat, b: nat)
    requires IsSlice(data, log, a, b) && a < b
    ensures data[0].offset == a && Behind(data) == b
  {
    assert IsAt(data[0], log, a + 0) && IsAt(data[|data| - 1], log, a + (|data| - 1));
  }

  /** What was downloaded of contiguous live ranges is a slice of the log, which each source
      continues. */
  lemma DownloadedSlice(s: State)
    requires TierInv(s) && EnabledCompaction(s, Download)
    ensures var c, c' := s.compaction, StepCompaction(s, Download).compaction;
            c'.expected == Reach(c.sources, c.done + 1) && IsSlice(c'.data, s.log, c.sources[0].start, c'.expected)
  {
    var c := s.compaction;
    var k := c.sources[c.done];
    assert Live(s.cold, k);
    LiveHoldsSlice(s.cold, s.objects, s.log, k);
    assert c.done > 0 ==> c.sources[c.done - 1].end == c.sources[c.done - 1 + 1].start;
    SliceEnds(s.objects[k], s.log, k.start, k.end);
    SliceGrows(c.data, s.objects[k], s.log, c.sources[0].start, k.start, k.end);
  }

  lemma InvDownload(s: State)
    requires TierInv(s) && EnabledCompaction(s, Download)
    ensures TierInv(StepCompaction(s, Download))
  {
    DownloadedSlice(s);
    var c' := StepCompaction(s, Download).compaction;
    assert StepCompaction(s, Download) == s.(compaction := c');
  }

  lemma InvPutMerged(s: State, sources: seq<Key>, data: seq<Entry>)
    requires TierInv(s) && s.compaction.Complete() && s.compaction.sources == sources && s.compaction.data == data
    ensures TierInv(s.(objects := s.objects[Merged(sources) := data], compaction := MergedUploaded(sources)))
  {
    DataPut(s, Merged(sources), data);
    TaskPut(s, Merged(sources), data);
  }

  lemma InvUploadMerged(s: State, bytes: nat)
    requires TierInv(s) && EnabledCompaction(s, UploadMerged(bytes)) && bytes <= s.config.threshold
    ensures TierInv(StepCompaction(s, UploadMerged(bytes)))
  {
    InvPutMerged(s, s.compaction.sources, s.compaction.data);
  }

  lemma InvStopped(s: State)
    requires TierInv(s) && !s.compaction.MergeRecorded?
    ensures TierInv(s.(compaction := NotCompacting))
  {
  }

  /** A merge whose upload breaks off where there was no object is over. */
  lemma BrokenMergeState(s: State)
    requires EnabledCompaction(s, BreakMerged) && Merged(s.compaction.sources) !in s.objects
    ensures StepCompaction(s, BreakMerged) == s.(compaction := NotCompacting)
  {
    assert s.objects - {Merged(s.compaction.sources)} == s.objects;
  }

  lemma InvBreakMerged(s: State)
    requires TierInv(s) && EnabledCompaction(s, BreakMerged) && Merged(s.compaction.sources) !in s.objects
    ensures TierInv(StepCompaction(s, BreakMerged))
  {
    BrokenMergeState(s);
    InvStopped(s);
  }

  lemma ReplaceKeepsKept(log: Content, wal: Wal, durable: Cold, m: Key)
    requires DurableCover(log, wal, durable) && Within(durable, m.start, m.end) && m.start < m.end
    ensures DurableCover(log, wal, ReplaceCold(durable, m.start, m.end, m))
  {
    forall o: nat | o in log ensures Kept(wal, ReplaceCold(durable, m.start, m.end, m), o) {
      assert Kept(wal, durable, o);
      ReplaceKeepsCover(durable, m.start, m.end, m, o);
    }
  }

  /** What the manifest no longer lists after the merge was recorded are the sources. */
  lemma RecordKeepsDurable(cold: Cold, durable: Cold, sources: seq<Key>)
    requires MemDurable(cold, durable, NotCompacting) && Disjoint(durable) && Contiguous(sources)
    requires AllLive(durable, sources)
    ensures var m := Merged(sources);
            MemDurable(cold, ReplaceCold(durable, m.start, m.end, m), MergeRecorded(sources))
  {
    var m := Merged(sources);
    SourceBounds(sources, 0);
    forall st | st in cold && m.start <= st < m.end ensures cold[st].key in sources {
      var i := InSpanIsSource(durable, sources, st);
    }
  }

  lemma ReplaceKeepsAllInside(cold: Cold, sources: seq<Key>, keys: set<Key>)
    requires Disjoint(cold) && |sources| >= 2 && Contiguous(sources) && AllLive(cold, sources) && AllInside(cold, keys)
    requires Within(cold, Merged(sources).start, Merged(sources).end)
    ensures var m := Merged(sources);
            AllInside(ReplaceCold(cold, m.start, m.end, m), keys + Set(sources))
  {
    var m := Merged(sources);
    var after := ReplaceCold(cold, m.start, m.end, m);
    forall k | k in keys + Set(sources) ensures Inside(after, k) {
      if k in sources {
        var i :| 0 <= i < |sources| && sources[i] == k;
        SourceInside(after, sources, i);
      } else {
        ReplaceKeepsInside(cold, sources, k);
      }
    }
  }

  /** A segment still in the log keeps its range when a merge replaces others. */
  lemma ReplaceKeepsSegment(cold: Cold, sources: seq<Key>, wal: Wal, q: nat)
    requires Contiguous(sources) && OffWal(sources, wal) && q in wal && wal[q] != [] && First(wal[q]) < Behind(wal[q])
    requires Live(cold, ObjectKey(wal[q]))
    ensures var m := Merged(sources); Live(ReplaceCold(cold, m.start, m.end, m), ObjectKey(wal[q]))
  {
    MergedOffWal(sources, wal, q);
    SourceBounds(sources, 0);
  }

  lemma DataRecordMerged(s: State)
    requires TierInv(s) && EnabledCompaction(s, RecordMerged(true)) && !s.torn
    ensures DataInv(StepCompaction(s, RecordMerged(true)))
  {
    var sources, durable := s.compaction.sources, Fold(s.manifest);
    var m := Merged(sources);
    FoldCompact(s.manifest, m, sources);
    ReplaceKeepsGood(durable, s.objects, s.log, s.wal, s.active, sources);
    ReplaceKeepsKept(s.log, s.wal, durable, m);
  }

  /** The merge leaves the segment that is being tiered alone. */
  lemma RecordKeepsTiering(t: Tiering, wal: Wal, active: nat, objects: Objects, log: Content, durable: Cold,
                           sources: seq<Key>)
    requires TieringInv(t, wal, active, objects, log, durable) && ApartFromWal(durable, wal)
    requires Contiguous(sources) && OffWal(sources, wal)
    ensures var m := Merged(sources); TieringInv(t, wal, active, objects, log, ReplaceCold(durable, m.start, m.end, m))
  {
    if t.Registered? || t.Flipped? {
      ReplaceKeepsSegment(durable, sources, wal, t.segment);
    }
  }

  lemma RecordKeepsTasks(s: State, sources: seq<Key>)
    requires TierInv(s) && s.compaction == MergedUploaded(sources)
    ensures var m := Merged(sources);
            var after := ReplaceCold(Fold(s.manifest), m.start, m.end, m);
            && MemDurable(s.cold, after, MergeRecorded(sources))
            && AllInside(after, Orphans(s.manifest) + Set(sources))
            && TieringInv(s.tiering, s.wal, s.active, s.objects, s.log, after)
  {
    var durable := Fold(s.manifest);
    ReplaceKeepsGood(durable, s.objects, s.log, s.wal, s.active, sources);
    RecordKeepsDurable(s.cold, durable, sources);
    ReplaceKeepsAllInside(durable, sources, Orphans(s.manifest));
    RecordKeepsTiering(s.tiering, s.wal, s.active, s.objects, s.log, durable, sources);
  }

  lemma TaskRecordMerged(s: State)
    requires TierInv(s) && EnabledCompaction(s, RecordMerged(true)) && !s.torn
    ensures TaskInv(StepCompaction(s, RecordMerged(true)))
  {
    var sources := s.compaction.sources;
    var m := Merged(sources);
    FoldCompact(s.manifest, m, sources);
    RecordKeepsTasks(s, sources);
  }

  lemma ReplaceKeepsMemory(log: Content, hot: map<nat, Record>, cold: Cold, m: Key)
    requires MemCover(log, hot, cold) && Within(cold, m.start, m.end) && m.start < m.end
    ensures MemCover(log, hot, ReplaceCold(cold, m.start, m.end, m))
  {
    forall o: nat | o in log ensures o in hot || Covered(ReplaceCold(cold, m.start, m.end, m), o) {
      ReplaceKeepsCover(cold, m.start, m.end, m, o);
    }
  }

  lemma ReplaceKeepsDurable(cold: Cold, durable: Cold, sources: seq<Key>, objects: Objects, log: Content)
    requires MemDurable(cold, durable, MergeRecorded(sources)) && Contiguous(sources) && Sound(cold, objects, log)
    requires Live(durable, Merged(sources))
    ensures var m := Merged(sources); MemDurable(ReplaceCold(cold, m.start, m.end, m), durable, Replaced(sources))
  {
    var m := Merged(sources);
    forall st | st in cold && !(m.start <= st < m.end) ensures st in durable && durable[st] == cold[st] {
      assert SoundRange(st, cold[st], objects, log);
      if cold[st].key in sources {
        var i :| 0 <= i < |sources| && sources[i] == cold[st].key;
        SourceBounds(sources, i);
      }
    }
  }

  lemma DataReplace(s: State)
    requires TierInv(s) && EnabledCompaction(s, Replace)
    ensures DataInv(StepCompaction(s, Replace))
  {
    var sources := s.compaction.sources;
    ReplaceKeepsGood(s.cold, s.objects, s.log, s.wal, s.active, sources);
    ReplaceKeepsMemory(s.log, s.hot, s.cold, Merged(sources));
  }

  lemma TaskReplace(s: State)
    requires TierInv(s) && EnabledCompaction(s, Replace)
    ensures TaskInv(StepCompaction(s, Replace))
  {
    var sources, durable := s.compaction.sources, Fold(s.manifest);
    var m := Merged(sources);
    var after := ReplaceCold(s.cold, m.start, m.end, m);
    ReplaceKeepsDurable(s.cold, durable, sources, s.objects, s.log);
    forall k | k in sources ensures Inside(after, k) && Inside(durable, k) {
      var i :| 0 <= i < |sources| && sources[i] == k;
      SourceInside(after, sources, i);
      SourceInside(durable, sources, i);
    }
  }

  lemma DeleteKeepsTiering(t: Tiering, wal: Wal, active: nat, objects: Objects, log: Content, durable: Cold,
                           gone: set<Key>)
    requires TieringInv(t, wal, active, objects, log, durable) && AllInside(durable, gone) && ApartFromWal(durable, wal)
    ensures TieringInv(t, wal, active, objects - gone, log, durable)
  {
  }

  lemma DataDelete(s: State, gone: set<Key>)
    requires DataInv(s) && AllInside(s.cold, gone) && AllInside(Fold(s.manifest), gone)
    ensures DataInv(s.(objects := s.objects - gone))
  {
    DeleteKeepsGood(s.cold, s.objects, gone, s.log, s.wal, s.active);
    DeleteKeepsGood(Fold(s.manifest), s.objects, gone, s.log, s.wal, s.active);
  }

  lemma TaskDelete(s: State, gone: set<Key>, left: seq<Key>)
    requires TaskInv(s) && ApartFromWal(Fold(s.manifest), s.wal) && AllInside(Fold(s.manifest), gone)
    requires s.compaction.Replaced? && forall k :: k in left ==> k in s.compaction.left
    ensures TaskInv(s.(objects := s.objects - gone, compaction := Replaced(left)))
  {
    DeleteKeepsTiering(s.tiering, s.wal, s.active, s.objects, s.log, Fold(s.manifest), gone);
  }

  lemma InvDelete(s: State, gone: set<Key>, left: seq<Key>)
    requires TierInv(s) && AllInside(s.cold, gone) && AllInside(Fold(s.manifest), gone)
    requires s.compaction.Replaced? && forall k :: k in left ==> k in s.compaction.left
    ensures TierInv(s.(objects := s.objects - gone, compaction := Replaced(left)))
  {
    DataDelete(s, gone);
    TaskDelete(s, gone, left);
  }

  lemma DeleteState(s: State, deleted: bool)
    requires EnabledCompaction(s, DeleteSource(deleted))
    ensures var left := s.compaction.left;
            StepCompaction(s, DeleteSource(deleted))
            == s.(objects := s.objects - (if deleted then {left[0]} else {}), compaction := Replaced(left[1..]))
  {
  }

  lemma InvDeleteSource(s: State, deleted: bool)
    requires TierInv(s) && EnabledCompaction(s, DeleteSource(deleted))
    ensures TierInv(StepCompaction(s, DeleteSource(deleted)))
  {
    var left := s.compaction.left;
    var gone := if deleted then {left[0]} else {};
    assert AllInside(s.cold, gone) && AllInside(Fold(s.manifest), gone);
    InvDelete(s, gone, left[1..]);
    DeleteState(s, deleted);
  }

  lemma InvAbandon(s: State)
    requires TierInv(s) && EnabledCompaction(s, Abandon)
    ensures TierInv(StepCompaction(s, Abandon))
  {
    InvStopped(s);
  }

  // --- Crash and recovery -----------------------------------------------------------------------------

  lemma RecoveredCover(log: Content, wal: Wal, active: nat, durable: Cold)
    requires WalInv(log, wal, active) && DurableCover(log, wal, durable)
    ensures MemCover(log, HotOf(wal), durable) && HotRight(log, HotOf(wal))
  {
    forall o: nat | o in log
      ensures o in HotOf(wal) || Covered(durable, o)
      ensures o in HotOf(wal) ==> HotOf(wal)[o] == log[o]
    {
      assert Kept(wal, durable, o);
      HotOfContents(wal, o);
      if InWal(wal, o) {
        LatestIsLog(log, wal, active, o);
      }
    }
  }

  /** The state after recovery, before the log's next segment is opened */
  function Restored(s: State, collected: set<Key>, hot: map<nat, Record>, durable: Cold): State {
    s.(torn := false, objects := s.objects - collected, hot := hot, cold := durable, cache := map[], pending := map[],
       kept := {}, fetched := map[], tiering := NotTiering, compaction := NotCompacting, plans := [])
  }

  lemma DataRecovered(s: State, collected: set<Key>)
    requires DataInv(s) && AllInside(Fold(s.manifest), collected)
    ensures DataInv(Restored(s, collected, HotOf(s.wal), Fold(s.manifest)))
  {
    DeleteKeepsGood(Fold(s.manifest), s.objects, collected, s.log, s.wal, s.active);
    RecoveredCover(s.log, s.wal, s.active, Fold(s.manifest));
  }

  lemma InvRestored(s: State, collected: set<Key>, s': State)
    requires TierInv(s) && collected <= Orphans(s.manifest)
    requires s' == Restored(s, collected, HotOf(s.wal), Fold(s.manifest))
    ensures TierInv(s')
  {
    assert AllInside(Fold(s.manifest), collected);
    DataRecovered(s, collected);
  }

  lemma CrashState(s: State, collected: set<Key>, s': State)
    requires s' == Restored(s, collected, HotOf(s.wal), Fold(s.manifest))
    ensures Recovered(s, collected) == s'.(wal := s'.wal[s'.active + 1 := []], active := s'.active + 1)
  {
  }

  lemma InvCrash(s: State, collected: set<Key>)
    requires TierInv(s) && collected <= Orphans(s.manifest)
    ensures TierInv(Recovered(s, collected))
  {
    var s' := Restored(s, collected, HotOf(s.wal), Fold(s.manifest));
    InvRestored(s, collected, s');
    CrashState(s, collected, s');
    InvNext(s', Recovered(s, collected));
  }

  // --- Every run ----------------------------------------------------------------------------------------

  /** Records are appended one after the other, each at the next offset, no object is above the
      upload threshold, nothing fails halfway, and the sources of a compaction have left the
      log. Failed uploads that had nothing to break do no harm. */
  ghost predicate Careful(s: State, a: Action) {
    match a
    case Append(Put(_, e)) => s.pending == map[] && e.offset == |s.log|
    case Append(Keep(_)) => false
    case Tier(Upload(_, bytes)) => bytes <= s.config.threshold
    case Tier(BreakUpload(q)) => q in s.wal && ObjectKey(s.wal[q]) !in s.objects
    case Merge(Plan(plans)) => forall i :: 0 <= i < |plans| ==> OffWal(plans[i], s.wal)
    case Merge(UploadMerged(bytes)) => bytes <= s.config.threshold
    case Merge(BreakMerged) => s.compaction.Complete() && Merged(s.compaction.sources) !in s.objects
    case Merge(RecordMerged(reported)) => reported
    case Tear => false
    case _ => true
  }

  lemma InvIdle(s: State, s': State)
    requires TierInv(s) && s'.wal == s.wal && s'.active == s.active && s'.log == s.log && s'.hot == s.hot
    requires s'.cold == s.cold && s'.objects == s.objects && s'.manifest == s.manifest && s'.tiering == s.tiering
    requires s'.compaction == s.compaction
    ensures TierInv(s')
  {
  }

  lemma InvRead(s: State, a: ReadAction)
    requires TierInv(s) && EnabledRead(s, a)
    ensures TierInv(StepRead(s, a))
  {
    InvIdle(s, StepRead(s, a));
  }

  lemma InvBegin(s: State)
    requires TierInv(s) && PlansInv(s) && EnabledCompaction(s, Begin)
    ensures TierInv(StepCompaction(s, Begin))
  {
    var plan := s.plans[0];
    assert StillWaits(s, plan);
    assert Reach(plan, 0) == plan[0].start;
  }

  lemma TieringStep(s: State, a: TierAction)
    requires TierInv(s) && !s.torn && EnabledTiering(s, a) && Careful(s, Tier(a))
    ensures TierInv(StepTiering(s, a))
  {
    match a
    case Upload(q, bytes) => InvUpload(s, q, bytes);
    case BreakUpload(q) => BrokenState(s, q);
    case RegisterRange => InvRegister(s);
    case Flip => InvFlip(s);
    case Panic => assert false;
    case Reclaim => InvReclaim(s);
    case Leave => InvLeave(s);
    case ReclaimEmpty(q) => InvReclaimEmpty(s, q);
  }

  lemma CompactionStep(s: State, a: MergeAction)
    requires TierInv(s) && PlansInv(s) && !s.torn && EnabledCompaction(s, a) && Careful(s, Merge(a))
    ensures TierInv(StepCompaction(s, a))
  {
    match a
    case Plan(plans) => InvIdle(s, StepCompaction(s, a));
    case Begin => InvBegin(s);
    case Download => InvDownload(s);
    case UploadMerged(bytes) => InvUploadMerged(s, bytes);
    case BreakMerged => InvBreakMerged(s);
    case RecordMerged(_) => DataRecordMerged(s); TaskRecordMerged(s);
    case Replace => DataReplace(s); TaskReplace(s);
    case DeleteSource(deleted) => InvDeleteSource(s, deleted);
    case Abandon => InvAbandon(s);
  }

  lemma AppendStep(s: State, a: AppendAction)
    requires Inv(s) && EnabledAppend(s, a) && Careful(s, Append(a))
    ensures TierInv(StepAppend(s, a))
  {
    match a
    case Put(id, e) => InvPut(s, id, e);
    case WalOk(id) => InvWalOk(s, id);
    case WalFail(id) => assert PutLast(s.log, s.hot, s.pending[id]); InvWalFail(s, id);
    case Seal => InvSeal(s);
  }

  lemma TierStep(s: State, a: Action)
    requires Inv(s) && Enabled(s, a) && Careful(s, a)
    ensures TierInv(Step(s, a))
  {
    match a
    case Append(b) => AppendStep(s, b);
    case Serve(b) => InvRead(s, b);
    case Tier(b) => TieringStep(s, b);
    case Merge(b) => CompactionStep(s, b);
    case Crash(collected) => InvCrash(s, collected);
  }

  // Compactions that wait

  lemma {:induction false} ReplaceKeepsLive(cold: Cold, plan: seq<Key>, m: Key)
    requires AllLive(cold, plan) && Contiguous(plan) && m.end <= plan[0].start && m.start < m.end
    ensures AllLive(ReplaceCold(cold, m.start, m.end, m), plan)
  {
    forall i | 0 <= i < |plan| ensures Live(ReplaceCold(cold, m.start, m.end, m), plan[i]) {
      SourceBounds(plan, i);
      assert Live(cold, plan[i]);
    }
  }

  lemma WaitsWalOk(s: State, id: nat, plan: seq<Key>)
    requires Inv(s) && EnabledAppend(s, WalOk(id)) && StillWaits(s, plan)
    ensures StillWaits(StepAppend(s, WalOk(id)), plan)
  {
    WalOkState(s, id);
    GrowKeepsChosen(plan, s.cold, s.log, s.wal, s.active, s.pending[id].record);
  }

  lemma WaitsSeal(s: State, plan: seq<Key>)
    requires EnabledAppend(s, Seal) && IsLast(s.wal, s.active) && StillWaits(s, plan) && WalInv(s.log, s.wal, s.active)
    ensures StillWaits(StepAppend(s, Seal), plan)
  {
  }

  lemma WaitsAppend(s: State, a: AppendAction, plan: seq<Key>)
    requires Inv(s) && EnabledAppend(s, a) && Careful(s, Append(a)) && StillWaits(s, plan)
    ensures StillWaits(StepAppend(s, a), plan)
  {
    match a
    case WalOk(id) => WaitsWalOk(s, id, plan);
    case Seal => WaitsSeal(s, plan);
    case _ =>
  }

  lemma WaitsRegister(s: State, plan: seq<Key>)
    requires TierInv(s) && EnabledTiering(s, RegisterRange) && StillWaits(s, plan)
    ensures StillWaits(StepTiering(s, RegisterRange), plan)
  {
    var q := s.tiering.segment;
    var key := ObjectKey(s.wal[q]);
    DenseBounds(s.log, s.wal[q]);
    FoldRegister(s.manifest, key.start, key.end, key);
    InsertKeepsLive(Fold(s.manifest), plan, s.wal, q);
  }

  lemma WaitsFlip(s: State, plan: seq<Key>)
    requires TierInv(s) && EnabledTiering(s, Flip) && StillWaits(s, plan)
    ensures StillWaits(StepTiering(s, Flip), plan)
  {
    var q := s.tiering.segment;
    DenseBounds(s.log, s.wal[q]);
    InsertKeepsLive(s.cold, plan, s.wal, q);
  }

  lemma WaitsRemove(s: State, q: nat, s': State, plan: seq<Key>)
    requires StillWaits(s, plan) && q != s.active && s' == s.(wal := s.wal - {q}, tiering := s'.tiering)
    ensures StillWaits(s', plan)
  {
  }

  lemma WaitsTiering(s: State, a: TierAction, plan: seq<Key>)
    requires Sane(s) && TierInv(s) && EnabledTiering(s, a) && StillWaits(s, plan)
    ensures StillWaits(StepTiering(s, a), plan)
  {
    match a
    case RegisterRange => WaitsRegister(s, plan);
    case Flip => WaitsFlip(s, plan);
    case Reclaim => WaitsRemove(s, s.tiering.segment, StepTiering(s, a), plan);
    case ReclaimEmpty(q) => WaitsRemove(s, q, StepTiering(s, a), plan);
    case _ =>
  }

  lemma SourcesContiguous(s: State)
    requires TaskInv(s) && Working(s.compaction)
    ensures Contiguous(s.compaction.sources) && Merged(s.compaction.sources).start < Merged(s.compaction.sources).end
  {
    SourceBounds(s.compaction.sources, 0);
  }

  lemma WaitsRecord(s: State, reported: bool, plan: seq<Key>)
    requires EnabledCompaction(s, RecordMerged(reported)) && StillWaits(s, plan)
    requires Merged(s.compaction.sources).start < Merged(s.compaction.sources).end
    ensures StillWaits(StepCompaction(s, RecordMerged(reported)), plan)
  {
    var m := Merged(s.compaction.sources);
    FoldCompact(s.manifest, m, s.compaction.sources);
    ReplaceKeepsLive(Fold(s.manifest), plan, m);
  }

  lemma WaitsReplace(s: State, plan: seq<Key>)
    requires EnabledCompaction(s, Replace) && StillWaits(s, plan)
    requires Merged(s.compaction.sources).start < Merged(s.compaction.sources).end
    ensures StillWaits(StepCompaction(s, Replace), plan)
  {
    ReplaceKeepsLive(s.cold, plan, Merged(s.compaction.sources));
  }

  lemma WaitsSame(s: State, s': State, plan: seq<Key>)
    requires StillWaits(s, plan) && s'.cold == s.cold && s'.manifest == s.manifest && s'.log == s.log
    requires s'.wal == s.wal && s'.active == s.active
    requires Working(s'.compaction) ==> Working(s.compaction) && s'.compaction.sources == s.compaction.sources
    ensures StillWaits(s', plan)
  {
  }

  lemma WaitsCompaction(s: State, a: MergeAction, plan: seq<Key>)
    requires TaskInv(s) && EnabledCompaction(s, a) && !a.Plan? && !a.Begin? && StillWaits(s, plan)
    ensures StillWaits(StepCompaction(s, a), plan)
  {
    if a.RecordMerged? {
      SourcesContiguous(s);
      WaitsRecord(s, a.reported, plan);
    } else if a.Replace? {
      SourcesContiguous(s);
      WaitsReplace(s, plan);
    } else {
      WaitsSame(s, StepCompaction(s, a), plan);
    }
  }

  lemma WaitsBegin(s: State)
    requires TierInv(s) && PlansInv(s) && EnabledCompaction(s, Begin)
    ensures PlansInv(StepCompaction(s, Begin))
  {
    var s' := StepCompaction(s, Begin);
    forall i | 0 <= i < |s'.plans| ensures StillWaits(s', s'.plans[i]) {
      assert s'.plans[i] == s.plans[i + 1] && s'.compaction.sources == s.plans[0];
      assert StillWaits(s, s.plans[i + 1]);
    }
  }

  lemma PlanInOrder(s: State, plans: seq<seq<Key>>, i: nat, j: nat)
    requires TierInv(s) && Plannable(s.cold, plans) && i < j < |plans|
    ensures Merged(plans[i]).end <= plans[j][0].start
  {
    var last := plans[i][|plans[i]| - 1];
    assert last in plans[i];
    assert Live(s.cold, last) && Live(s.cold, plans[j][0]);
  }

  lemma WaitsPlanned(s: State, plans: seq<seq<Key>>, i: nat)
    requires TierInv(s) && EnabledCompaction(s, Plan(plans)) && i < |plans| && OffWal(plans[i], s.wal)
    ensures StillWaits(StepCompaction(s, Plan(plans)), plans[i])
  {
    PlannedIsChosen(s, plans[i]);
  }

  lemma WaitsPlan(s: State, plans: seq<seq<Key>>)
    requires TierInv(s) && EnabledCompaction(s, Plan(plans))
    requires forall i :: 0 <= i < |plans| ==> OffWal(plans[i], s.wal)
    ensures PlansInv(StepCompaction(s, Plan(plans)))
  {
    var s' := StepCompaction(s, Plan(plans));
    forall i | 0 <= i < |plans| ensures StillWaits(s', plans[i]) {
      WaitsPlanned(s, plans, i);
    }
    forall i, j | 0 <= i < j < |plans| ensures Merged(plans[i]).end <= plans[j][0].start {
      PlanInOrder(s, plans, i, j);
    }
  }

  lemma PlansStay(s: State, s': State)
    requires PlansInv(s) && s'.plans == s.plans && forall plan :: plan in s.plans ==> StillWaits(s', plan)
    ensures PlansInv(s')
  {
  }

  lemma PlansAppend(s: State, a: AppendAction)
    requires Inv(s) && EnabledAppend(s, a) && Careful(s, Append(a))
    ensures PlansInv(StepAppend(s, a))
  {
    forall plan | plan in s.plans ensures StillWaits(StepAppend(s, a), plan) {
      WaitsAppend(s, a, plan);
    }
    PlansStay(s, StepAppend(s, a));
  }

  lemma PlansTiering(s: State, a: TierAction)
    requires Inv(s) && EnabledTiering(s, a)
    ensures PlansInv(StepTiering(s, a))
  {
    forall plan | plan in s.plans ensures StillWaits(StepTiering(s, a), plan) {
      WaitsTiering(s, a, plan);
    }
    PlansStay(s, StepTiering(s, a));
  }

  lemma PlansCompaction(s: State, a: MergeAction)
    requires Inv(s) && EnabledCompaction(s, a) && Careful(s, Merge(a))
    ensures PlansInv(StepCompaction(s, a))
  {
    match a
    case Plan(plans) => WaitsPlan(s, plans);
    case Begin => WaitsBegin(s);
    case _ =>
      forall plan | plan in s.plans ensures StillWaits(StepCompaction(s, a), plan) {
        WaitsCompaction(s, a, plan);
      }
      PlansStay(s, StepCompaction(s, a));
  }

  lemma PlansRead(s: State, a: ReadAction)
    requires Inv(s) && EnabledRead(s, a)
    ensures PlansInv(StepRead(s, a))
  {
    forall plan | plan in s.plans ensures StillWaits(StepRead(s, a), plan) {
      WaitsSame(s, StepRead(s, a), plan);
    }
    PlansStay(s, StepRead(s, a));
  }

  lemma PlansStep(s: State, a: Action)
    requires Inv(s) && Enabled(s, a) && Careful(s, a)
    ensures PlansInv(Step(s, a))
  {
    match a
    case Append(b) => PlansAppend(s, b);
    case Serve(b) => PlansRead(s, b);
    case Tier(b) => PlansTiering(s, b);
    case Merge(b) => PlansCompaction(s, b);
    case Crash(_) =>
  }

  // Reads under way and in the cache

  lemma RunGrown(run: seq<Entry>, log: Content, record: Record, o: nat)
    requires Gapless(log) && RunOf(run, log, o)
    ensures RunOf(run, Longer(log, record), o)
  {
    forall i | 0 <= i < |run| ensures IsAt(run[i], Longer(log, record), o + i) {
      assert IsAt(run[i], log, o + i);
    }
  }

  lemma CacheWalOk(s: State, id: nat)
    requires Inv(s) && EnabledAppend(s, WalOk(id))
    ensures CacheInv(StepAppend(s, WalOk(id)))
  {
    var record := s.pending[id].record;
    WalOkState(s, id);
    forall o | o in s.cache ensures RunOf(s.cache[o], Longer(s.log, record), o) {
      RunGrown(s.cache[o], s.log, record, o);
    }
    forall r | r in s.fetched ensures RunOf(s.fetched[r].run, Longer(s.log, record), s.fetched[r].offset) {
      RunGrown(s.fetched[r].run, s.log, record, s.fetched[r].offset);
    }
  }

  lemma FetchedRun(s: State, id: nat, o: nat, n: nat)
    requires DataInv(s) && EnabledRead(s, Fetch(id, o, n))
    ensures RunOf(ReadCold(s.cold, s.objects, map[], o)[..n], s.log, o)
  {
    var k :| k in s.objects && PointsTo(s.cold, k, o);
    var st :| IsFloor(s.cold, o, st) && o < s.cold[st].end && s.cold[st].key == k;
    assert Covers(s.cold, st, o);
    ReadsLog(s.cold, s.objects, map[], s.log, o);
    var found := ReadCold(s.cold, s.objects, map[], o);
    var run := found[..n];
    forall i | 0 <= i < |run| ensures IsAt(run[i], s.log, o + i) {
      assert IsAt(found[i], s.log, o + i);
    }
  }

  lemma CacheFetch(s: State, id: nat, o: nat, n: nat)
    requires CacheInv(s) && EnabledRead(s, Fetch(id, o, n))
    requires RunOf(ReadCold(s.cold, s.objects, map[], o)[..n], s.log, o)
    ensures CacheInv(StepRead(s, Fetch(id, o, n)))
  {
  }

  lemma CacheRead(s: State, a: ReadAction)
    requires DataInv(s) && CacheInv(s) && EnabledRead(s, a)
    ensures CacheInv(StepRead(s, a))
  {
    match a
    case Fetch(id, o, n) => FetchedRun(s, id, o, n); CacheFetch(s, id, o, n);
    case _ =>
  }

  lemma CacheAppend(s: State, a: AppendAction)
    requires Inv(s) && EnabledAppend(s, a)
    ensures CacheInv(StepAppend(s, a))
  {
    match a
    case WalOk(id) => CacheWalOk(s, id);
    case _ =>
  }

  /** Tiering and compaction touch neither the cache nor what is being appended. */
  lemma TieringFrame(s: State, a: TierAction)
    requires EnabledTiering(s, a)
    ensures var s' := StepTiering(s, a);
            && s'.log == s.log && s'.cache == s.cache && s'.fetched == s.fetched && s'.pending == s.pending
            && s'.kept == s.kept && s'.torn == s.torn && (!a.Flip? ==> s'.hot == s.hot)
  {
  }

  lemma CompactionFrame(s: State, a: MergeAction)
    requires EnabledCompaction(s, a)
    ensures var s' := StepCompaction(s, a);
            && s'.log == s.log && s'.cache == s.cache && s'.fetched == s.fetched && s'.pending == s.pending
            && s'.kept == s.kept && s'.torn == s.torn && s'.hot == s.hot
  {
  }

  lemma CacheStays(s: State, s': State)
    requires CacheInv(s) && s'.log == s.log && s'.cache == s.cache && s'.fetched == s.fetched
    ensures CacheInv(s')
  {
  }

  lemma CacheStep(s: State, a: Action)
    requires Inv(s) && Enabled(s, a)
    ensures CacheInv(Step(s, a))
  {
    match a
    case Append(b) => CacheAppend(s, b);
    case Serve(b) => CacheRead(s, b);
    case Tier(b) => TieringFrame(s, b); CacheStays(s, Step(s, a));
    case Merge(b) => CompactionFrame(s, b); CacheStays(s, Step(s, a));
    case Tear => CacheStays(s, Step(s, a));
    case Crash(_) =>
  }

  // The record that is being appended

  lemma FlowPut(s: State, id: nat, e: Entry)
    requires FlowInv(s) && EnabledAppend(s, Put(id, e)) && s.pending == map[] && e.offset == |s.log|
    ensures FlowInv(StepAppend(s, Put(id, e)))
  {
    var s' := StepAppend(s, Put(id, e));
    assert s'.pending == map[id := e] && s'.pending[id] == e;
    assert forall o :: o in s.hot ==> o in s.log;
  }

  lemma FlowWalOk(s: State, id: nat)
    requires FlowInv(s) && EnabledAppend(s, WalOk(id))
    ensures FlowInv(StepAppend(s, WalOk(id)))
  {
    WalOkState(s, id);
    assert PutLast(s.log, s.hot, s.pending[id]);
    forall o | o in s.hot ensures o in Longer(s.log, s.pending[id].record) {
      if o !in s.log {
        var other :| other in s.pending && s.pending[other] == Entry(o, s.hot[o]);
        assert other == id;
      }
    }
  }

  lemma FlowWalFail(s: State, id: nat)
    requires FlowInv(s) && EnabledAppend(s, WalFail(id))
    ensures FlowInv(StepAppend(s, WalFail(id)))
  {
    var s' := StepAppend(s, WalFail(id));
    assert s'.pending == map[];
    assert PutLast(s.log, s.hot, s.pending[id]);
  }

  lemma FlowStays(s: State, s': State)
    requires FlowInv(s) && s'.log == s.log && s'.hot == s.hot && s'.pending == s.pending
    requires s'.kept == s.kept && s'.torn == s.torn
    ensures FlowInv(s')
  {
    forall o | o in s'.hot ensures o in s'.log || IsPending(s', Entry(o, s'.hot[o])) {
      if IsPending(s, Entry(o, s.hot[o])) {
        var id :| id in s.pending && s.pending[id] == Entry(o, s.hot[o]);
        assert s'.pending[id] == Entry(o, s'.hot[o]);
      }
    }
  }

  lemma FlowAppend(s: State, a: AppendAction)
    requires FlowInv(s) && EnabledAppend(s, a) && Careful(s, Append(a))
    ensures FlowInv(StepAppend(s, a))
  {
    match a
    case Put(id, e) => FlowPut(s, id, e);
    case WalOk(id) => FlowWalOk(s, id);
    case WalFail(id) => FlowWalFail(s, id);
    case Seal => FlowStays(s, StepAppend(s, a));
  }

  lemma FlowFlip(s: State)
    requires Inv(s) && EnabledTiering(s, Flip)
    ensures FlowInv(StepTiering(s, Flip))
  {
    var segment := s.wal[s.tiering.segment];
    DenseBounds(s.log, segment);
    forall id | id in s.pending ensures PutLast(s.log, Without(s.hot, First(segment), Behind(segment)), s.pending[id]) {
      assert PutLast(s.log, s.hot, s.pending[id]);
    }
  }

  lemma FlowCrash(s: State, collected: set<Key>)
    requires Inv(s)
    ensures FlowInv(Recovered(s, collected))
  {
    forall o | o in HotOf(s.wal) ensures o in s.log {
      HotOfContents(s.wal, o);
      LatestIsLog(s.log, s.wal, s.active, o);
    }
  }

  lemma FlowTiering(s: State, a: TierAction)
    requires Inv(s) && EnabledTiering(s, a)
    ensures FlowInv(StepTiering(s, a))
  {
    if a.Flip? {
      FlowFlip(s);
    } else {
      TieringFrame(s, a);
      FlowStays(s, StepTiering(s, a));
    }
  }

  lemma FlowCompaction(s: State, a: MergeAction)
    requires FlowInv(s) && EnabledCompaction(s, a)
    ensures FlowInv(StepCompaction(s, a))
  {
    CompactionFrame(s, a);
    FlowStays(s, StepCompaction(s, a));
  }

  lemma FlowRead(s: State, a: ReadAction)
    requires FlowInv(s) && EnabledRead(s, a)
    ensures FlowInv(StepRead(s, a))
  {
    FlowStays(s, StepRead(s, a));
  }

  lemma FlowStep(s: State, a: Action)
    requires Inv(s) && Enabled(s, a) && Careful(s, a)
    ensures FlowInv(Step(s, a))
  {
    match a
    case Append(b) => FlowAppend(s, b);
    case Serve(b) => FlowRead(s, b);
    case Tier(b) => FlowTiering(s, b);
    case Merge(b) => FlowCompaction(s, b);
    case Crash(collected) => FlowCrash(s, collected);
  }

  lemma InvStep(s: State, a: Action)
    requires Inv(s) && Enabled(s, a) && Careful(s, a)
    ensures Inv(Step(s, a))
  {
    SaneStep(s, a);
    TierStep(s, a);
    PlansStep(s, a);
    CacheStep(s, a);
    FlowStep(s, a);
  }

  ghost predicate CarefulRun(states: seq<State>, actions: seq<Action>) {
    Trace(states, actions) && forall k :: 0 <= k < |actions| ==> Careful(states[k], actions[k])
  }

  lemma InitInv(c: Config)
    ensures Inv(Init(c))
  {
  }

  lemma {:induction false} InvRun(states: seq<State>, actions: seq<Action>, k: nat)
    requires CarefulRun(states, actions) && k <= |actions|
    ensures Inv(states[k])
  {
    if k == 0 {
      InitInv(states[0].config);
    } else {
      InvRun(states, actions, k - 1);
      assert Follows(states[k - 1], actions[k - 1], states[k - 1 + 1]);
      InvStep(states[k - 1], actions[k - 1]);
    }
  }

  /** However appends, reads, tiering, compactions and crashes interleave, every read serves the
      durable log and would after a crash, if every step of the run is careful. */
  lemma NothingIsLost(states: seq<State>, actions: seq<Action>)
    requires CarefulRun(states, actions)
    ensures forall k :: 0 <= k < |states| ==> Holds(states[k])
  {
    forall k | 0 <= k < |states| ensures Holds(states[k]) {
      InvRun(states, actions, k);
      InvServes(states[k]);
      InvSurvives(states[k]);
    }
  }

  // --- What the broker sees ------------------------------------------------------------------------------

  /** The view of the store that the broker model works with: what the log has, and in memory
      also what is being appended */
  function View(s: State, fromMemory: bool, next: nat): PartitionLog.Log {
    PartitionLog.Log(if fromMemory then s.log + s.hot else s.log, next)
  }

  function RecordsOf(entries: seq<Entry>): seq<Record> {
    seq(|entries|, i requires 0 <= i < |entries| => entries[i].record)
  }

  /** What a read finds at an offset is what the view has there. */
  lemma FoundInView(s: State, o: nat, i: nat, next: nat)
    requires Right(s, o) && i < |Read(s, o)|
    ensures var view := View(s, o in s.hot, next);
            o + i in view.entries && view.entries[o + i] == Read(s, o)[i].record
  {
    var r := Read(s, o);
    assert Current(s, r[i], o + i, o in s.hot);
    if o in s.hot {
      assert r[i].offset in s.hot && r[i].record == s.hot[r[i].offset];
    }
  }

  lemma PrefixIsRun(s: State, o: nat, n: nat, next: nat)
    requires Right(s, o) && n <= |Read(s, o)|
    ensures IsRunAt(View(s, o in s.hot, next), o, RecordsOf(Read(s, o)[..n]))
  {
    var run, view := RecordsOf(Read(s, o)[..n]), View(s, o in s.hot, next);
    forall p | o <= p < o + |run| ensures p in view.entries && view.entries[p] == run[p - o] {
      FoundInView(s, o, p - o, next);
    }
  }

  lemma FoundIff(s: State, o: nat, next: nat)
    requires Right(s, o)
    ensures Read(s, o) == [] <==> o !in View(s, o in s.hot, next).entries
  {
    if Read(s, o) != [] {
      FoundInView(s, o, 0, next);
    }
  }

  /** Every record of the view is the log's or is being appended. */
  lemma ViewIsCurrent(s: State, fromMemory: bool, next: nat, o: nat)
    requires Serves(s) && o in View(s, fromMemory, next).entries
    ensures Current(s, Entry(o, View(s, fromMemory, next).entries[o]), o, fromMemory)
  {
    if fromMemory && o in s.hot {
      assert Right(s, o);
      RightNeedsHot(s, o);
    }
  }

  /** A store whose reads are right is, to a reader, the map from offsets to records on
      which the broker's produce and fetch calls are modelled: every read, cut off by its
      byte budget after any of its records, is a read of that map, and a read that finds
      nothing finds nothing there. A read from memory sees records that are being appended. */
  lemma ServesView(s: State, o: nat, n: nat, next: nat)
    requires Serves(s) && n <= |Read(s, o)|
    ensures n > 0 ==> RecordsOf(Read(s, o)[..n]) == View(s, o in s.hot, next).Read(o, n - 1)
    ensures Read(s, o) == [] <==> View(s, o in s.hot, next).Read(o, n) == []
  {
    assert Right(s, o);
    FoundIff(s, o, next);
    if n > 0 {
      PrefixIsRun(s, o, n, next);
      RunIsRead(View(s, o in s.hot, next), o, RecordsOf(Read(s, o)[..n]));
    }
  }
}
