/** The build script's search for `.proto` files: a depth-first walk over directories that
    symbolic links may turn into a graph with cycles. Names are numbered in the order of
    their bytes; directories are identified by their canonical path. */
module ProtoDiscovery {
  import opened Types

  type Name = nat
  type Path = seq<Name>
  type Dir = nat

  datatype Node = Directory(dir: Dir) | ProtoFile | OtherFile
  datatype Entry = Entry(name: Name, node: Node)

  /** Result of reading a directory that exists. */
  datatype Listing = Unreadable | Entries(entries: seq<Entry>)

  type FileSystem = map<Dir, Listing>

  /** Names within a directory differ, and an entry that is a directory exists. */
  ghost predicate WellFormed(fs: FileSystem) {
    forall d :: d in fs && fs[d].Entries? ==>
      && (forall i, j :: 0 <= i < j < |fs[d].entries| ==> fs[d].entries[i].name != fs[d].entries[j].name)
      && (forall i :: 0 <= i < |fs[d].entries| && fs[d].entries[i].node.Directory? ==> fs[d].entries[i].node.dir in fs)
  }

  predicate Readable(fs: FileSystem, d: Dir) {
    d in fs && fs[d].Entries?
  }

  /** The directory holds an entry with this name and node. */
  ghost predicate Has(fs: FileSystem, d: Dir, name: Name, node: Node) {
    Readable(fs, d) && Entry(name, node) in fs[d].entries
  }

  /** Following these names from the root, through readable directories, ends at `d`. */
  ghost predicate Leads(fs: FileSystem, root: Dir, path: Path, d: Dir)
    decreases |path|
  {
    if path == [] then d == root
    else
      var last := |path| - 1;
      exists parent :: Leads(fs, root, path[..last], parent) && Has(fs, parent, path[last], Directory(d))
  }

  ghost predicate Reachable(fs: FileSystem, root: Dir, d: Dir) {
    exists path :: Leads(fs, root, path, d)
  }

  /** The path names the `.proto` entry `at.1` of directory `at.0`. */
  ghost predicate Names(fs: FileSystem, root: Dir, path: Path, at: (Dir, Name)) {
    && path != [] && path[|path| - 1] == at.1
    && Leads(fs, root, path[..|path| - 1], at.0) && Has(fs, at.0, at.1, ProtoFile)
  }

  lemma OneNodePerName(fs: FileSystem, d: Dir, name: Name, a: Node, b: Node)
    requires WellFormed(fs) && Has(fs, d, name, a) && Has(fs, d, name, b)
    ensures a == b
  {
  }

  /** A path leads to one place only, so it names one entry only. */
  lemma {:induction false} LeadsIsFunctional(fs: FileSystem, root: Dir, path: Path, d: Dir, e: Dir)
    requires WellFormed(fs) && Leads(fs, root, path, d) && Leads(fs, root, path, e)
    ensures d == e
    decreases |path|
  {
    if path != [] {
      var last := |path| - 1;
      var p :| Leads(fs, root, path[..last], p) && Has(fs, p, path[last], Directory(d));
      var q :| Leads(fs, root, path[..last], q) && Has(fs, q, path[last], Directory(e));
      LeadsIsFunctional(fs, root, path[..last], p, q);
      OneNodePerName(fs, p, path[last], Directory(d), Directory(e));
    }
  }

  lemma LeadsFurther(fs: FileSystem, root: Dir, path: Path, d: Dir, name: Name, child: Dir)
    requires Leads(fs, root, path, d) && Has(fs, d, name, Directory(child))
    ensures Leads(fs, root, path + [name], child)
  {
    assert (path + [name])[..|path|] == path;
  }

  /** A set that contains the root and all subdirectories of its members contains
      everything reachable. */
  lemma {:induction false} ClosedContainsReachable(fs: FileSystem, root: Dir, s: set<Dir>, path: Path, d: Dir)
    requires root in s && Leads(fs, root, path, d)
    requires forall e: Dir, name: Name, child: Dir :: e in s && Has(fs, e, name, Directory(child)) ==> child in s
    ensures d in s
    decreases |path|
  {
    if path != [] {
      var last := |path| - 1;
      var p :| Leads(fs, root, path[..last], p) && Has(fs, p, path[last], Directory(d));
      ClosedContainsReachable(fs, root, s, path[..last], p);
    }
  }

  type Origin = (Dir, Name)

  /** Every file found names the entry recorded for it, no entry is recorded twice, and
      only reachable directories are visited. */
  ghost predicate Sound(fs: FileSystem, root: Dir, files: seq<Path>, origins: seq<Origin>, visited: set<Dir>) {
    && |files| == |origins| && Distinct(origins)
    && (forall i :: 0 <= i < |files| ==> Names(fs, root, files[i], origins[i]) && origins[i].0 in visited)
    && (forall d :: d in visited ==> Reachable(fs, root, d))
  }

  ghost predicate EntrySettled(origins: seq<Origin>, visited: set<Dir>, d: Dir, entry: Entry) {
    && (entry.node.Directory? ==> entry.node.dir in visited)
    && (entry.node.ProtoFile? ==> (d, entry.name) in origins)
  }

  /** Nothing in or directly below this directory is left to find. */
  ghost predicate Settled(fs: FileSystem, origins: seq<Origin>, visited: set<Dir>, d: Dir) {
    d in fs ==>
      && Readable(fs, d)
      && (forall k :: 0 <= k < |fs[d].entries| ==> EntrySettled(origins, visited, d, fs[d].entries[k]))
  }

  /** The walk only grows, and only by entries of directories newly visited. */
  ghost predicate Grew(origins: seq<Origin>, visited: set<Dir>, origins': seq<Origin>, visited': set<Dir>) {
    && visited <= visited' && origins <= origins'
    && (forall i :: |origins| <= i < |origins'| ==> origins'[i].0 !in visited)
  }

  lemma PushKeepsSound(fs: FileSystem, root: Dir, files: seq<Path>, origins: seq<Origin>, visited: set<Dir>,
                       path: Path, dir: Dir, name: Name)
    requires Sound(fs, root, files, origins, visited) && (dir, name) !in origins && dir in visited
    requires Leads(fs, root, path, dir) && Has(fs, dir, name, ProtoFile)
    ensures Sound(fs, root, files + [path + [name]], origins + [(dir, name)], visited)
  {
  }

  /** The loop over `dir` has dealt with its first `i` entries. */
  ghost predicate Progress(fs: FileSystem, o0: seq<Origin>, v0: set<Dir>, origins: seq<Origin>, visited: set<Dir>,
                           dir: Dir, i: nat) {
    && v0 <= visited && o0 <= origins
    && (forall j :: |o0| <= j < |origins| ==> origins[j].0 == dir || origins[j].0 !in v0)
    && (forall d :: d in visited && d !in v0 ==> Settled(fs, origins, visited, d))
    && (Readable(fs, dir) && i <= |fs[dir].entries| ==>
          && (forall k :: 0 <= k < i ==> EntrySettled(origins, visited, dir, fs[dir].entries[k]))
          && (forall k :: i <= k < |fs[dir].entries| ==> (dir, fs[dir].entries[k].name) !in origins))
  }

  lemma OriginsBelow(o0: seq<Origin>, v0: set<Dir>, o1: seq<Origin>, v1: set<Dir>, o2: seq<Origin>, v2: set<Dir>,
                     dir: Dir)
    requires v0 <= v1 && o0 <= o1 && Grew(o1, v1, o2, v2)
    requires forall j :: |o0| <= j < |o1| ==> o1[j].0 == dir || o1[j].0 !in v0
    ensures o0 <= o2 && forall j :: |o0| <= j < |o2| ==> o2[j].0 == dir || o2[j].0 !in v0
  {
  }

  lemma ProgressByVisit(fs: FileSystem, o0: seq<Origin>, v0: set<Dir>, o1: seq<Origin>, v1: set<Dir>,
                        o2: seq<Origin>, v2: set<Dir>, dir: Dir, i: nat)
    requires Readable(fs, dir) && i < |fs[dir].entries| && dir in v0
    requires Progress(fs, o0, v0, o1, v1, dir, i) && Grew(o1, v1, o2, v2)
    requires forall d :: d in v2 && d !in v1 ==> Settled(fs, o2, v2, d)
    requires fs[dir].entries[i].node.Directory? && fs[dir].entries[i].node.dir in v2
    ensures Progress(fs, o0, v0, o2, v2, dir, i + 1)
  {
  }

  lemma ProgressByFile(fs: FileSystem, o0: seq<Origin>, v0: set<Dir>, o1: seq<Origin>, v: set<Dir>, dir: Dir, i: nat)
    requires WellFormed(fs) && Readable(fs, dir) && i < |fs[dir].entries| && dir in v0
    requires Progress(fs, o0, v0, o1, v, dir, i) && fs[dir].entries[i].node.ProtoFile?
    ensures Progress(fs, o0, v0, o1 + [(dir, fs[dir].entries[i].name)], v, dir, i + 1)
  {
  }

  /** Some reachable directory exists and cannot be read. */
  ghost predicate Blocked(fs: FileSystem, root: Dir) {
    exists d :: Reachable(fs, root, d) && d in fs && fs[d].Unreadable?
  }

  /** The walk's accumulators. `origins` records for each file found the directory and
      name it stands for, `listed` the directories read. */
  class Walk {
    var files: seq<Path>
    var visited: set<Dir>
    ghost var origins: seq<Origin>
    ghost var listed: seq<Dir>

    ghost predicate Valid(fs: FileSystem, root: Dir)
      reads this
    {
      && Sound(fs, root, files, origins, visited)
      && Distinct(listed) && forall i :: 0 <= i < |listed| ==> listed[i] in visited
    }

    constructor ()
      ensures files == [] && visited == {} && origins == [] && listed == []
    {
      files, visited, origins, listed := [], {}, [], [];
    }

    /** `discover_proto_files_recursive`, up to its loop */
    method Visit(fs: FileSystem, ghost root: Dir, path: Path, dir: Dir) returns (ok: bool)
      requires WellFormed(fs) && Valid(fs, root) && Leads(fs, root, path, dir)
      modifies this
      ensures Valid(fs, root) && Grew(old(origins), old(visited), origins, visited) && dir in visited
      ensures ok ==> forall d :: d in visited && d !in old(visited) ==> Settled(fs, origins, visited, d)
      ensures !ok ==> Blocked(fs, root)
      decreases fs.Keys - visited, 0
    {
      if dir in visited {
        return true;
      }
      visited := visited + {dir};
      if dir !in fs {
        return true;
      }
      if fs[dir].Unreadable? {
        return false;
      }
      listed := listed + [dir];
      ok := VisitEntries(fs, root, path, dir);
    }

    /** Its loop over the entries of one directory */
    method VisitEntries(fs: FileSystem, ghost root: Dir, path: Path, dir: Dir) returns (ok: bool)
      requires WellFormed(fs) && Valid(fs, root) && Leads(fs, root, path, dir)
      requires Readable(fs, dir) && dir in visited && forall name: Name :: (dir, name) !in origins
      modifies this
      ensures Valid(fs, root)
      ensures visited >= old(visited) && old(origins) <= origins
      ensures forall j :: |old(origins)| <= j < |origins| ==> origins[j].0 == dir || origins[j].0 !in old(visited)
      ensures ok ==> Progress(fs, old(origins), old(visited), origins, visited, dir, |fs[dir].entries|)
      ensures !ok ==> Blocked(fs, root)
      decreases fs.Keys - visited, 1
    {
      var entries := fs[dir].entries;
      ghost var o0, v0 := origins, visited;
      for i := 0 to |entries|
        invariant Valid(fs, root) && Progress(fs, o0, v0, origins, visited, dir, i)
      {
        var Entry(name, node) := entries[i];
        assert Has(fs, dir, name, node);
        ghost var o1, v1 := origins, visited;
        if node.Directory? {
          LeadsFurther(fs, root, path, dir, name, node.dir);
          var below := Visit(fs, root, path + [name], node.dir);
          if !below {
            OriginsBelow(o0, v0, o1, v1, origins, visited, dir);
            return false;
          }
          ProgressByVisit(fs, o0, v0, o1, v1, origins, visited, dir, i);
        } else if node.ProtoFile? {
          PushKeepsSound(fs, root, files, origins, visited, path, dir, name);
          files := files + [path + [name]];
          origins := origins + [(dir, name)];
          ProgressByFile(fs, o0, v0, o1, v1, dir, i);
        }
      }
      return true;
    }
  }

  /** Order of paths: component by component, a path before its extensions. */
  predicate Before(p: Path, q: Path) {
    if p == [] then q != []
    else q != [] && (p[0] < q[0] || (p[0] == q[0] && Before(p[1..], q[1..])))
  }

  lemma {:induction false} BeforeIsTotal(p: Path, q: Path)
    ensures p == q || Before(p, q) || Before(q, p)
    ensures !(Before(p, q) && Before(q, p))
  {
    if p != [] && q != [] && p[0] == q[0] {
      BeforeIsTotal(p[1..], q[1..]);
      assert p == [p[0]] + p[1..] && q == [q[0]] + q[1..];
    }
  }

  lemma {:induction false} BeforeIsTransitive(p: Path, q: Path, r: Path)
    requires Before(p, q) && Before(q, r)
    ensures Before(p, r)
  {
    if p != [] && p[0] == q[0] && q[0] == r[0] {
      BeforeIsTransitive(p[1..], q[1..], r[1..]);
    }
  }

  ghost predicate Increasing(s: seq<Path>) {
    forall i, j :: 0 <= i < j < |s| ==> Before(s[i], s[j])
  }

  method SortedInsert(s: seq<Path>, p: Path) returns (r: seq<Path>)
    requires Increasing(s) && p !in s
    ensures Increasing(r) && |r| == |s| + 1 && forall q :: q in r <==> q == p || q in s
  {
    var i := 0;
    while i < |s| && Before(s[i], p)
      invariant 0 <= i <= |s| && forall k :: 0 <= k < i ==> Before(s[k], p)
    {
      i := i + 1;
    }
    forall k | i <= k < |s| ensures Before(p, s[k]) {
      BeforeIsTotal(p, s[i]);
      assert s[i] in s;
      if i < k {
        BeforeIsTransitive(p, s[i], s[k]);
      }
    }
    r := s[..i] + [p] + s[i..];
  }

  /** `proto_files.sort()`, on paths that are all different */
  method Sort(s: seq<Path>) returns (r: seq<Path>)
    requires Distinct(s)
    ensures Increasing(r) && |r| == |s| && forall q :: q in r <==> q in s
  {
    r := [];
    for i := 0 to |s|
      invariant Increasing(r) && |r| == i && forall q :: q in r <==> q in s[..i]
    {
      assert s[i] !in s[..i];
      r := SortedInsert(r, s[i]);
      assert s[..i + 1] == s[..i] + [s[i]];
    }
    assert s[..|s|] == s;
  }

  /** Exactly one of the paths names this entry. */
  ghost predicate NamedOnce(fs: FileSystem, root: Dir, files: seq<Path>, at: Origin) {
    && (exists p :: p in files && Names(fs, root, p, at))
    && (forall p, q :: p in files && q in files && Names(fs, root, p, at) && Names(fs, root, q, at) ==> p == q)
  }

  lemma OriginIsNamed(fs: FileSystem, root: Dir, p: Path, a: Origin, b: Origin)
    requires WellFormed(fs) && Names(fs, root, p, a) && Names(fs, root, p, b)
    ensures a == b
  {
    LeadsIsFunctional(fs, root, p[..|p| - 1], a.0, b.0);
  }

  lemma FilesAreDistinct(fs: FileSystem, root: Dir, files: seq<Path>, origins: seq<Origin>, visited: set<Dir>)
    requires WellFormed(fs) && Sound(fs, root, files, origins, visited)
    ensures Distinct(files)
  {
    forall i, j | 0 <= i < j < |files| ensures files[i] != files[j] {
      if files[i] == files[j] {
        OriginIsNamed(fs, root, files[i], origins[i], origins[j]);
      }
    }
  }

  lemma FoundOnce(fs: FileSystem, root: Dir, files: seq<Path>, origins: seq<Origin>, visited: set<Dir>, at: Origin)
    requires WellFormed(fs) && Sound(fs, root, files, origins, visited) && at in origins
    ensures NamedOnce(fs, root, files, at)
  {
    var k :| 0 <= k < |origins| && origins[k] == at;
    assert files[k] in files && Names(fs, root, files[k], at);
    forall p | p in files && Names(fs, root, p, at) ensures p == files[k] {
      var i :| 0 <= i < |files| && files[i] == p;
      OriginIsNamed(fs, root, p, origins[i], at);
      assert i == k;
    }
  }

  /** When every visited directory is settled, everything reachable was visited, and every
      `.proto` entry of it was recorded. */
  lemma AllSettledIsComplete(fs: FileSystem, root: Dir, origins: seq<Origin>, visited: set<Dir>, d: Dir)
    requires root in visited && Reachable(fs, root, d)
    requires forall e :: e in visited ==> Settled(fs, origins, visited, e)
    ensures d in visited && (d in fs ==> Readable(fs, d))
    ensures forall name: Name :: Has(fs, d, name, ProtoFile) ==> (d, name) in origins
  {
    var path :| Leads(fs, root, path, d);
    forall e: Dir, name: Name, child: Dir | e in visited && Has(fs, e, name, Directory(child))
      ensures child in visited
    {
      var k :| 0 <= k < |fs[e].entries| && fs[e].entries[k] == Entry(name, Directory(child));
      assert EntrySettled(origins, visited, e, fs[e].entries[k]);
    }
    ClosedContainsReachable(fs, root, visited, path, d);
    forall name: Name | Has(fs, d, name, ProtoFile) ensures (d, name) in origins {
      var k :| 0 <= k < |fs[d].entries| && fs[d].entries[k] == Entry(name, ProtoFile);
      assert EntrySettled(origins, visited, d, fs[d].entries[k]);
    }
  }

  /** `discover_proto_files` */
  method Discover(fs: FileSystem, root: Dir) returns (r: Option<seq<Path>>)
    requires WellFormed(fs)
    ensures r.None? <==> Blocked(fs, root)
    ensures r.Some? ==> Increasing(r.value)
    ensures r.Some? ==> forall p :: p in r.value ==> exists at :: Names(fs, root, p, at)
    ensures r.Some? ==> forall d: Dir, name: Name :: Reachable(fs, root, d) && Has(fs, d, name, ProtoFile) ==>
                          NamedOnce(fs, root, r.value, (d, name))
  {
    var walk := new Walk();
    assert Leads(fs, root, [], root);
    var ok := walk.Visit(fs, root, [], root);
    if !ok {
      return None;
    }
    FilesAreDistinct(fs, root, walk.files, walk.origins, walk.visited);
    var sorted := Sort(walk.files);
    forall d: Dir | Reachable(fs, root, d)
      ensures d in fs ==> Readable(fs, d)
      ensures forall name: Name :: Has(fs, d, name, ProtoFile) ==> NamedOnce(fs, root, sorted, (d, name))
    {
      AllSettledIsComplete(fs, root, walk.origins, walk.visited, d);
      forall name: Name | Has(fs, d, name, ProtoFile) ensures NamedOnce(fs, root, sorted, (d, name)) {
        FoundOnce(fs, root, walk.files, walk.origins, walk.visited, (d, name));
      }
    }
    return Some(sorted);
  }
}
