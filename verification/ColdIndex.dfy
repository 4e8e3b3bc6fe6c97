/** Cold ranges of one partition: which object holds which offsets, as the memory index
    keeps them and as the durable manifest folds to them. */
module ColdIndex {
  import opened Types

  /** `topics/{topic}/{partition}/{start}_{end}.seg` of a fixed partition */
  datatype Key = Key(start: nat, end: nat)

  datatype Range = Range(end: nat, key: Key)

  type Cold = map<nat, Range>

  /** A record as log segments and objects carry it, with its offset */
  datatype Entry = Entry(offset: nat, record: Record)

  type Objects = map<Key, seq<Entry>>

  /** Which record is durably at which offset */
  type Content = map<nat, Record>

  /** What cold reads at an offset have yielded */
  type Cache = map<nat, seq<Entry>>

  datatype ManifestRecord = Register(start: nat, end: nat, key: Key)
                          | Compact(start: nat, end: nat, key: Key, sources: seq<Key>)

  /** `insert_cold`, and the cold half of `flip_to_cold` */
  function InsertCold(cold: Cold, start: nat, end: nat, key: Key): Cold {
    cold[start := Range(end, key)]
  }

  /** `replace_cold` */
  function ReplaceCold(cold: Cold, start: nat, end: nat, key: Key): Cold {
    (map st | st in cold && !(start <= st < end) :: cold[st])[start := Range(end, key)]
  }

  function Apply(cold: Cold, r: ManifestRecord): Cold {
    match r
    case Register(start, end, key) => InsertCold(cold, start, end, key)
    case Compact(start, end, key, _) => ReplaceCold(cold, start, end, key)
  }

  /** The live ranges and the superseded keys after a manifest */
  function Fold(manifest: seq<ManifestRecord>): Cold {
    if manifest == [] then map[] else Apply(Fold(manifest[..|manifest| - 1]), manifest[|manifest| - 1])
  }

  function Orphans(manifest: seq<ManifestRecord>): set<Key> {
    if manifest == [] then {}
    else
      var last := manifest[|manifest| - 1];
      Orphans(manifest[..|manifest| - 1]) + if last.Compact? then set k | k in last.sources else {}
  }

  lemma FoldOneMore(manifest: seq<ManifestRecord>, r: ManifestRecord)
    ensures Fold(manifest + [r]) == Apply(Fold(manifest), r)
    ensures Orphans(manifest + [r]) == Orphans(manifest) + if r.Compact? then set k | k in r.sources else {}
  {
  }

  lemma FoldRegister(manifest: seq<ManifestRecord>, start: nat, end: nat, key: Key)
    ensures Fold(manifest + [Register(start, end, key)]) == InsertCold(Fold(manifest), start, end, key)
    ensures Orphans(manifest + [Register(start, end, key)]) == Orphans(manifest)
  {
    FoldOneMore(manifest, Register(start, end, key));
  }

  lemma FoldCompact(manifest: seq<ManifestRecord>, m: Key, sources: seq<Key>)
    ensures Fold(manifest + [Compact(m.start, m.end, m, sources)]) == ReplaceCold(Fold(manifest), m.start, m.end, m)
    ensures Orphans(manifest + [Compact(m.start, m.end, m, sources)]) == Orphans(manifest) + set k | k in sources
  {
    FoldOneMore(manifest, Compact(m.start, m.end, m, sources));
  }

  /** Removes the ranges that begin in [start, end), in any order. */
  method Subsume(cold: Cold, start: nat, end: nat) returns (kept: Cold)
    ensures kept == map st | st in cold && !(start <= st < end) :: cold[st]
  {
    kept := cold;
    var subsumed := set st | st in cold && start <= st < end;
    while subsumed != {}
      invariant subsumed <= kept.Keys && (forall st :: st in subsumed ==> start <= st < end)
      invariant forall st :: st in kept <==> st in cold && (st in subsumed || !(start <= st < end))
      invariant forall st :: st in kept ==> kept[st] == cold[st]
      decreases subsumed
    {
      var st :| st in subsumed;
      kept := kept - {st};
      subsumed := subsumed - {st};
    }
  }

  /** `ColdIndexManifest::fold` on the records of one partition; the sources removed by a
      merge are found by their start offsets. */
  method FoldManifest(records: seq<ManifestRecord>) returns (live: Cold, orphans: set<Key>)
    ensures live == Fold(records) && orphans == Orphans(records)
  {
    live, orphans := map[], {};
    for i := 0 to |records|
      invariant live == Fold(records[..i]) && orphans == Orphans(records[..i])
    {
      FoldOneMore(records[..i], records[i]);
      assert records[..i] + [records[i]] == records[..i + 1];
      match records[i] {
        case Register(start, end, key) =>
          live := live[start := Range(end, key)];
        case Compact(start, end, key, sources) =>
          var kept := Subsume(live, start, end);
          live := kept[start := Range(end, key)];
          orphans := orphans + set k | k in sources;
      }
    }
    assert records[..|records|] == records;
  }

  // --- Reading ---------------------------------------------------------------------

  /** The entries at or above `o`, in the order in which the object holds them */
  function From(data: seq<Entry>, o: nat): seq<Entry> {
    if data == [] then []
    else From(data[..|data| - 1], o) + if data[|data| - 1].offset >= o then [data[|data| - 1]] else []
  }

  function Bytes(data: seq<Entry>, structBytes: nat): nat {
    if data == [] then 0
    else Bytes(data[..|data| - 1], structBytes) + MemSize(data[|data| - 1].record, structBytes)
  }

  /** What is selected from a prefix of the object is a prefix of what is selected. */
  lemma {:induction false} FromGrows(data: seq<Entry>, o: nat, i: nat)
    requires i <= |data|
    ensures From(data[..i], o) <= From(data, o)
    decreases |data| - i
  {
    if i == |data| {
      assert data[..i] == data;
    } else {
      FromGrows(data, o, i + 1);
      assert data[..i + 1][..i] == data[..i];
    }
  }

  /** The loop of a cold read over the downloaded object: a prefix of what the object
      holds from the offset on, as long as the byte budget allows, and at least one entry. */
  method ReadObject(data: seq<Entry>, offset: nat, maxBytes: nat, structBytes: nat) returns (out: seq<Entry>)
    ensures out <= From(data, offset)
    ensures From(data, offset) != [] ==> out != []
    ensures |out| >= 2 ==> Bytes(out, structBytes) <= maxBytes
    ensures |out| < |From(data, offset)| ==> Bytes(From(data, offset)[..|out| + 1], structBytes) > maxBytes
  {
    out := [];
    var bytes := 0;
    for i := 0 to |data|
      invariant out == From(data[..i], offset) && bytes == Bytes(out, structBytes)
      invariant |out| >= 2 ==> bytes <= maxBytes
    {
      assert data[..i + 1][..i] == data[..i];
      if data[i].offset >= offset {
        var size := MemSize(data[i].record, structBytes);
        var longer := out + [data[i]];
        assert longer[..|out|] == out;
        if out != [] && bytes + size > maxBytes {
          FromGrows(data, offset, i + 1);
          assert From(data, offset)[..|longer|] == longer;
          return;
        }
        out, bytes := longer, bytes + size;
      }
    }
    assert data[..|data|] == data;
  }

  lemma {:induction false} FromSelects(data: seq<Entry>, o: nat, i: nat)
    requires i < |From(data, o)|
    ensures From(data, o)[i] in data && From(data, o)[i].offset >= o
    decreases |data|
  {
    var init := data[..|data| - 1];
    if i < |From(init, o)| {
      FromSelects(init, o, i);
    }
  }

  lemma {:induction false} FromConcat(a: seq<Entry>, b: seq<Entry>, o: nat)
    ensures From(a + b, o) == From(a, o) + From(b, o)
    decreases |b|
  {
    if b == [] {
      assert a + b == a;
    } else {
      FromConcat(a, b[..|b| - 1], o);
      assert (a + b)[..|a + b| - 1] == a + b[..|b| - 1];
    }
  }

  lemma {:induction false} AllFrom(data: seq<Entry>, o: nat)
    requires forall i :: 0 <= i < |data| ==> o <= data[i].offset
    ensures From(data, o) == data
  {
    if data != [] {
      var init, last := data[..|data| - 1], data[|data| - 1];
      AllFrom(init, o);
      assert data == init + [last];
    }
  }

  /** The greatest start that is not above `o` */
  ghost predicate IsFloor(cold: Cold, o: nat, st: nat) {
    st in cold && st <= o && forall t :: t in cold && t <= o ==> t <= st
  }

  /** What a range yields for a read at `o`: what an earlier read at `o` left in the cache,
      whichever object that came from, or else what the range's object holds from `o` on */
  function Yield(r: Range, objects: Objects, cache: Cache, o: nat): seq<Entry> {
    if r.end <= o then []
    else if o in cache then cache[o]
    else if r.key in objects then From(objects[r.key], o)
    else []
  }

  /** What a cold read at `o` yields without a byte budget */
  ghost function ReadCold(cold: Cold, objects: Objects, cache: Cache, o: nat): seq<Entry> {
    if exists st :: IsFloor(cold, o, st) then
      var st :| IsFloor(cold, o, st);
      Yield(cold[st], objects, cache, o)
    else []
  }

  lemma ReadAtFloor(cold: Cold, objects: Objects, cache: Cache, o: nat, st: nat)
    requires IsFloor(cold, o, st)
    ensures ReadCold(cold, objects, cache, o) == Yield(cold[st], objects, cache, o)
  {
  }

  /** The entry is the log's at `o`. */
  predicate IsAt(e: Entry, log: Content, o: nat) {
    o in log && e == Entry(o, log[o])
  }

  /** The entries are the log's from `o` on, one after the other, and there is one. */
  ghost predicate RunOf(entries: seq<Entry>, log: Content, o: nat) {
    entries != [] && forall i :: 0 <= i < |entries| ==> IsAt(entries[i], log, o + i)
  }

  /** A run of the log from `o` if it has a record there, and nothing if it has none */
  ghost predicate Answers(entries: seq<Entry>, log: Content, o: nat) {
    if o in log then RunOf(entries, log, o) else entries == []
  }

  ghost predicate Backed(cold: Cold, objects: Objects, cache: Cache, log: Content, o: nat) {
    Answers(ReadCold(cold, objects, cache, o), log, o)
  }

  /** A range that begins at `a` would be in front of `o`: no other begins in between. */
  ghost predicate InFront(cold: Cold, a: nat, o: nat) {
    a <= o && forall t :: t in cold && t <= o ==> t <= a
  }

  /** Whenever some range begins at or below `o`, one of them is the floor. */
  lemma {:induction false} FloorExists(cold: Cold, o: nat, st: nat)
    requires st in cold && st <= o
    ensures exists t :: IsFloor(cold, o, t)
    decreases o - st
  {
    if !IsFloor(cold, o, st) {
      var t :| t in cold && t <= o && t > st;
      FloorExists(cold, o, t);
    }
  }

  lemma NoFloor(cold: Cold, o: nat)
    requires forall t :: !IsFloor(cold, o, t)
    ensures forall t :: t in cold ==> t > o
  {
    forall t | t in cold ensures t > o {
      if t <= o {
        FloorExists(cold, o, t);
      }
    }
  }

  /** Inserting a range changes reads exactly where it comes in front. */
  lemma ReadAfterInsert(cold: Cold, objects: Objects, cache: Cache, key: Key, o: nat)
    ensures ReadCold(InsertCold(cold, key.start, key.end, key), objects, cache, o)
         == if InFront(cold, key.start, o) then Yield(Range(key.end, key), objects, cache, o)
            else ReadCold(cold, objects, cache, o)
  {
    var after := InsertCold(cold, key.start, key.end, key);
    if InFront(cold, key.start, o) {
      ReadAtFloor(after, objects, cache, o, key.start);
    } else if exists st :: IsFloor(cold, o, st) {
      var st :| IsFloor(cold, o, st);
      ReadAtFloor(cold, objects, cache, o, st);
      ReadAtFloor(after, objects, cache, o, st);
    } else {
      NoFloor(cold, o);
      assert forall st :: !IsFloor(after, o, st);
    }
  }

  /** No range begins between the end of the span and `o`. */
  ghost predicate SpanInFront(cold: Cold, m: Key, o: nat) {
    m.start <= o && forall t :: t in cold && t <= o ==> t <= m.start || t < m.end
  }

  /** Replacing the ranges of a span changes reads exactly where the span comes in front. */
  lemma ReadAfterReplace(cold: Cold, objects: Objects, cache: Cache, m: Key, o: nat)
    ensures ReadCold(ReplaceCold(cold, m.start, m.end, m), objects, cache, o)
         == if SpanInFront(cold, m, o) then Yield(Range(m.end, m), objects, cache, o)
            else ReadCold(cold, objects, cache, o)
  {
    var after := ReplaceCold(cold, m.start, m.end, m);
    if SpanInFront(cold, m, o) {
      ReadAtFloor(after, objects, cache, o, m.start);
    } else if exists st :: IsFloor(cold, o, st) {
      var st :| IsFloor(cold, o, st);
      ReadAtFloor(cold, objects, cache, o, st);
      ReadAtFloor(after, objects, cache, o, st);
    } else {
      NoFloor(cold, o);
      assert forall st :: !IsFloor(after, o, st);
    }
  }

  /** The range in front of `o` reaches beyond `o`. */
  ghost predicate Reached(cold: Cold, o: nat) {
    exists st :: IsFloor(cold, o, st) && o < cold[st].end
  }

  lemma ReachedAtFloor(cold: Cold, o: nat, st: nat)
    requires IsFloor(cold, o, st)
    ensures Reached(cold, o) <==> o < cold[st].end
  {
    if Reached(cold, o) {
      var t :| IsFloor(cold, o, t) && o < cold[t].end;
      assert t == st;
    }
  }

  /** The range in front of `o` reaches beyond `o` and names this object. */
  ghost predicate PointsTo(cold: Cold, key: Key, o: nat) {
    exists st :: IsFloor(cold, o, st) && o < cold[st].end && cold[st].key == key
  }

  lemma PointsToAtFloor(cold: Cold, key: Key, o: nat, st: nat)
    requires IsFloor(cold, o, st)
    ensures PointsTo(cold, key, o) <==> o < cold[st].end && cold[st].key == key
  {
    if PointsTo(cold, key, o) {
      var t :| IsFloor(cold, o, t) && o < cold[t].end && cold[t].key == key;
      assert t == st;
    }
  }

  /** Writing an object changes reads exactly where ranges point to it and the cache has
      nothing. */
  lemma ReadAfterPut(cold: Cold, objects: Objects, cache: Cache, key: Key, data: seq<Entry>, o: nat)
    ensures ReadCold(cold, objects[key := data], cache, o)
         == if PointsTo(cold, key, o) && o !in cache then From(data, o) else ReadCold(cold, objects, cache, o)
  {
    if exists st :: IsFloor(cold, o, st) {
      var st :| IsFloor(cold, o, st);
      PointsToAtFloor(cold, key, o, st);
      ReadAtFloor(cold, objects, cache, o, st);
      ReadAtFloor(cold, objects[key := data], cache, o, st);
    }
  }

  /** A read at `o` relies on an object among these. */
  ghost predicate ReliesOn(cold: Cold, keys: set<Key>, o: nat) {
    exists k :: k in keys && PointsTo(cold, k, o)
  }

  /** Deleting objects empties reads exactly where ranges point to them and the cache has
      nothing. */
  lemma ReadAfterDelete(cold: Cold, objects: Objects, cache: Cache, gone: set<Key>, o: nat)
    ensures ReadCold(cold, objects - gone, cache, o)
         == if ReliesOn(cold, gone, o) && o !in cache then [] else ReadCold(cold, objects, cache, o)
  {
    if exists st :: IsFloor(cold, o, st) {
      var st :| IsFloor(cold, o, st);
      ReadAtFloor(cold, objects, cache, o, st);
      ReadAtFloor(cold, objects - gone, cache, o, st);
      PointsToAtFloor(cold, cold[st].key, o, st);
      forall key | key in gone && PointsTo(cold, key, o) ensures o < cold[st].end && cold[st].key == key {
        PointsToAtFloor(cold, key, o, st);
      }
    }
  }

  /** What the cache has at other offsets does not matter. */
  lemma ReadCached(cold: Cold, objects: Objects, cache: Cache, o: nat)
    ensures ReadCold(cold, objects, cache, o)
         == if Reached(cold, o) && o in cache then cache[o] else ReadCold(cold, objects, map[], o)
  {
    if exists st :: IsFloor(cold, o, st) {
      var st :| IsFloor(cold, o, st);
      ReachedAtFloor(cold, o, st);
      ReadAtFloor(cold, objects, cache, o, st);
      ReadAtFloor(cold, objects, map[], o, st);
    }
  }

  // --- Ranges whose objects hold their slice of the log --------------------------------

  ghost predicate Covers(cold: Cold, st: nat, o: nat) {
    st in cold && st <= o < cold[st].end
  }

  ghost predicate Covered(cold: Cold, o: nat) {
    exists st :: Covers(cold, st, o)
  }

  ghost predicate Disjoint(cold: Cold) {
    forall a, b :: a in cold && b in cold && a < b ==> cold[a].end <= b
  }

  /** The data are the entries of the log from `a` up to `b`. */
  ghost predicate IsSlice(data: seq<Entry>, log: Content, a: nat, b: nat) {
    a <= b && |data| == b - a && forall i :: 0 <= i < |data| ==> IsAt(data[i], log, a + i)
  }

  lemma {:induction false} NothingFrom(data: seq<Entry>, o: nat)
    requires forall i :: 0 <= i < |data| ==> data[i].offset < o
    ensures From(data, o) == []
  {
    if data != [] {
      NothingFrom(data[..|data| - 1], o);
    }
  }

  lemma PartOfSlice(data: seq<Entry>, log: Content, a: nat, b: nat, i: nat, j: nat)
    requires IsSlice(data, log, a, b) && i <= j <= |data|
    ensures IsSlice(data[i..j], log, a + i, a + j)
  {
    var part := data[i..j];
    forall k | 0 <= k < |part| ensures IsAt(part[k], log, a + i + k) {
      assert IsAt(data[i + k], log, a + (i + k));
    }
  }

  lemma {:induction false} FromIsSuffix(data: seq<Entry>, log: Content, a: nat, b: nat, o: nat)
    requires IsSlice(data, log, a, b) && a <= o <= b
    ensures From(data, o) == data[o - a..]
    decreases b - a
  {
    if a < b {
      var init, last := data[..|data| - 1], data[|data| - 1];
      assert IsAt(last, log, a + (|data| - 1));
      PartOfSlice(data, log, a, b, 0, |data| - 1);
      if o < b {
        FromIsSuffix(init, log, a, b - 1, o);
        assert data[o - a..] == init[o - a..] + [last];
      } else {
        forall i | 0 <= i < |init| ensures init[i].offset < o {
          assert IsAt(init[i], log, a + i);
        }
        NothingFrom(init, o);
      }
    }
  }

  lemma FromSlice(data: seq<Entry>, log: Content, a: nat, b: nat, o: nat)
    requires IsSlice(data, log, a, b) && a <= o <= b
    ensures IsSlice(From(data, o), log, o, b)
  {
    FromIsSuffix(data, log, a, b, o);
    PartOfSlice(data, log, a, b, o - a, |data|);
  }

  lemma SliceIsRun(data: seq<Entry>, log: Content, a: nat, b: nat)
    requires IsSlice(data, log, a, b) && a < b
    ensures a in log && RunOf(data, log, a)
  {
    assert IsAt(data[0], log, a + 0);
  }

  ghost predicate HoldsSlice(objects: Objects, k: Key, log: Content) {
    k in objects && IsSlice(objects[k], log, k.start, k.end)
  }

  ghost predicate SoundRange(st: nat, r: Range, objects: Objects, log: Content) {
    st < r.end && r.key == Key(st, r.end) && HoldsSlice(objects, r.key, log)
  }

  /** Every range names the object made for it, and the object holds its part of the log. */
  ghost predicate Sound(cold: Cold, objects: Objects, log: Content) {
    forall st :: st in cold ==> SoundRange(st, cold[st], objects, log)
  }

  /** What the cache has is the log's. */
  ghost predicate CacheRight(cache: Cache, log: Content) {
    forall o :: o in cache ==> RunOf(cache[o], log, o)
  }

  lemma ReadCovered(cold: Cold, objects: Objects, log: Content, st: nat, o: nat)
    requires Disjoint(cold) && Sound(cold, objects, log) && Covers(cold, st, o)
    ensures IsSlice(ReadCold(cold, objects, map[], o), log, o, cold[st].end)
  {
    assert IsFloor(cold, o, st) && SoundRange(st, cold[st], objects, log);
    ReadAtFloor(cold, objects, map[], o, st);
    FromSlice(objects[cold[st].key], log, st, cold[st].end, o);
  }

  lemma ReadUncovered(cold: Cold, objects: Objects, cache: Cache, o: nat)
    requires !Covered(cold, o)
    ensures ReadCold(cold, objects, cache, o) == []
  {
    if exists st :: IsFloor(cold, o, st) {
      var st :| IsFloor(cold, o, st);
      assert !Covers(cold, st, o);
      ReadAtFloor(cold, objects, cache, o, st);
    }
  }

  /** With disjoint sound ranges, and a cache that holds runs of the log, a read at a covered
      offset yields a run of the log, without the cache up to the end of the range, and a
      read at any other offset yields nothing. */
  lemma ReadsLog(cold: Cold, objects: Objects, cache: Cache, log: Content, o: nat)
    requires Disjoint(cold) && Sound(cold, objects, log) && CacheRight(cache, log)
    ensures Covered(cold, o) ==> o in log && RunOf(ReadCold(cold, objects, cache, o), log, o)
    ensures !Covered(cold, o) ==> ReadCold(cold, objects, cache, o) == []
    ensures forall st :: Covers(cold, st, o) && o !in cache ==>
              IsSlice(ReadCold(cold, objects, cache, o), log, o, cold[st].end)
  {
    if st: nat :| Covers(cold, st, o) {
      ReadCovered(cold, objects, log, st, o);
      SliceIsRun(ReadCold(cold, objects, map[], o), log, o, cold[st].end);
      ReadCached(cold, objects, cache, o);
      forall t | Covers(cold, t, o) ensures IsSlice(ReadCold(cold, objects, map[], o), log, o, cold[t].end) {
        ReadCovered(cold, objects, log, t, o);
      }
    } else {
      ReadUncovered(cold, objects, cache, o);
    }
  }

  // --- Operations on disjoint ranges -------------------------------------------------

  /** Every range is this one or lies beside it. */
  ghost predicate Beside(cold: Cold, start: nat, end: nat) {
    forall st :: st in cold ==> (st == start && cold[st].end == end) || cold[st].end <= start || end <= st
  }

  lemma InsertKeepsDisjoint(cold: Cold, start: nat, end: nat, key: Key)
    requires Disjoint(cold) && Beside(cold, start, end) && start < end
    requires forall st :: st in cold ==> st < cold[st].end
    ensures Disjoint(InsertCold(cold, start, end, key))
  {
  }

  lemma InsertKeepsCover(cold: Cold, start: nat, end: nat, key: Key, o: nat)
    requires Beside(cold, start, end) && start < end
    ensures Covered(InsertCold(cold, start, end, key), o) <==> Covered(cold, o) || start <= o < end
  {
    var after := InsertCold(cold, start, end, key);
    if start <= o < end {
      assert Covers(after, start, o);
    } else if Covered(cold, o) {
      var st :| Covers(cold, st, o);
      assert Covers(after, st, o);
    } else if Covered(after, o) {
      var st :| Covers(after, st, o);
      assert Covers(cold, st, o);
    }
  }

  /** Every range lies within [start, end) or beside it. */
  ghost predicate Within(cold: Cold, start: nat, end: nat) {
    forall st :: st in cold ==> (start <= st && cold[st].end <= end) || cold[st].end <= start || end <= st
  }

  lemma ReplaceKeepsDisjoint(cold: Cold, start: nat, end: nat, key: Key)
    requires Disjoint(cold) && Within(cold, start, end) && start < end
    requires forall st :: st in cold ==> st < cold[st].end
    ensures Disjoint(ReplaceCold(cold, start, end, key))
  {
  }

  lemma ReplaceKeepsCover(cold: Cold, start: nat, end: nat, key: Key, o: nat)
    requires Within(cold, start, end) && start < end
    ensures Covered(ReplaceCold(cold, start, end, key), o) <==> Covered(cold, o) || start <= o < end
  {
    var after := ReplaceCold(cold, start, end, key);
    if start <= o < end {
      assert Covers(after, start, o);
    } else if Covered(cold, o) {
      var st :| Covers(cold, st, o);
      assert Covers(after, st, o);
    } else if Covered(after, o) {
      var st :| Covers(after, st, o);
      assert Covers(cold, st, o);
    }
  }

  // --- Runs of ranges ----------------------------------------------------------------

  /** Ranges in rising order, each beginning where the one before it ends; the last one may
      be empty or end before it begins. */
  ghost predicate Adjacent(sources: seq<Key>) {
    forall i :: 0 <= i < |sources| - 1 ==>
      sources[i].start < sources[i + 1].start && sources[i].end == sources[i + 1].start
  }

  /** At least one source, none empty; each begins where the one before it ends. */
  ghost predicate Contiguous(sources: seq<Key>) {
    && sources != [] && (forall i :: 0 <= i < |sources| ==> sources[i].start < sources[i].end)
    && (forall i :: 0 <= i < |sources| - 1 ==> sources[i].end == sources[i + 1].start)
  }

  function Merged(sources: seq<Key>): Key
    requires sources != []
  {
    Key(sources[0].start, sources[|sources| - 1].end)
  }

  ghost predicate Live(cold: Cold, k: Key) {
    k.start in cold && cold[k.start] == Range(k.end, k)
  }

  ghost predicate AllLive(cold: Cold, sources: seq<Key>) {
    forall i :: 0 <= i < |sources| ==> Live(cold, sources[i])
  }

  lemma {:induction false} SourcesRise(sources: seq<Key>, i: nat, j: nat)
    requires Contiguous(sources) && i <= j < |sources|
    ensures sources[i].start <= sources[j].start && sources[i].end <= sources[j].end
    ensures i < j ==> sources[i].end <= sources[j].start
    decreases j - i
  {
    if i < j {
      SourcesRise(sources, i, j - 1);
    }
  }

  lemma {:induction false} SourceBounds(sources: seq<Key>, i: nat)
    requires Contiguous(sources) && i < |sources|
    ensures sources[0].start <= sources[i].start && sources[i].end <= sources[|sources| - 1].end
    ensures i > 0 ==> sources[0].start < sources[i].start
    ensures i < |sources| - 1 ==> sources[i].end < sources[|sources| - 1].end
    decreases i
  {
    SourcesRise(sources, 0, i);
    SourcesRise(sources, i, |sources| - 1);
  }

  /** Every offset of the merged range lies in one of the sources. */
  lemma {:induction false} SomeSource(sources: seq<Key>, o: nat, n: nat) returns (i: nat)
    requires Contiguous(sources) && 0 < n <= |sources| && sources[0].start <= o < sources[n - 1].end
    ensures i < n && sources[i].start <= o < sources[i].end
    decreases n
  {
    if sources[n - 1].start <= o {
      i := n - 1;
    } else {
      i := SomeSource(sources, o, n - 1);
    }
  }

  /** Live sources leave no room for another range that reaches into their span. */
  lemma SourcesFill(cold: Cold, sources: seq<Key>)
    requires Disjoint(cold) && Contiguous(sources) && AllLive(cold, sources)
    requires forall st :: st in cold ==> st < cold[st].end
    ensures Within(cold, Merged(sources).start, Merged(sources).end)
  {
  }
}
