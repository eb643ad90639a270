/**
 When a scan succeeds: on every well-made configuration that keeps within the limits.
 */
module ScanComplete {
  import opened Models
  import opened SourceGraph
  import opened ScanSafety
  import opened ScanTheorems
  import Definitions
  import PatchParser

  // ----- The size of directories

  /** The visible directories, the directory itself included, and the visible entries. */
  function DirectoryCount(dir: Fs): (n: nat)
    decreases dir, 1
  {
    if dir.Dir? then 1 + DirectoriesIn(dir, dir.entries) else 0
  }

  function DirectoriesIn(dir: Fs, entries: seq<Entry>): nat
    requires dir.Dir? && forall e | e in entries :: e in dir.entries
    decreases dir, 0, |entries|
  {
    if entries == [] then 0
    else
      assert entries[0] in dir.entries;
      (if Hidden(entries[0]) then 0 else DirectoryCount(entries[0].node)) + DirectoriesIn(dir, entries[1..])
  }

  function EntryCount(dir: Fs): nat
    decreases dir, 1
  {
    if dir.Dir? then EntriesIn(dir, dir.entries) else 0
  }

  function EntriesIn(dir: Fs, entries: seq<Entry>): nat
    requires dir.Dir? && forall e | e in entries :: e in dir.entries
    decreases dir, 0, |entries|
  {
    if entries == [] then 0
    else
      assert entries[0] in dir.entries;
      (if Hidden(entries[0]) then 0 else 1 + EntryCount(entries[0].node)) + EntriesIn(dir, entries[1..])
  }

  /** The walk of a plain directory counts exactly these, and stops only at a limit. */
  predicate Counts(w: Walk, r: Option<Walk>, directories: nat, entries: nat) {
    if w.directories + directories <= MAX_DIRECTORIES && w.entries + entries <= MAX_ENTRIES then
      r.Some? && r.value.directories == w.directories + directories && r.value.entries == w.entries + entries
    else r.None?
  }

  lemma {:induction false} WalkCounts(dir: Fs, scope: Path, relative: Path, w: Walk)
    requires PlainDirectory(dir) && w.directories <= MAX_DIRECTORIES && w.entries <= MAX_ENTRIES
    ensures Counts(w, WalkDirectory(dir, scope, relative, w), DirectoryCount(dir), EntryCount(dir))
    decreases dir, 1
  {
    if w.directories + 1 <= MAX_DIRECTORIES {
      WalkEntriesCount(dir, dir.entries, scope, relative, w.(directories := w.directories + 1));
    }
  }

  lemma {:induction false} WalkEntriesCount(dir: Fs, entries: seq<Entry>, scope: Path, relative: Path, w: Walk)
    requires dir.Dir? && (forall e | e in entries :: e in dir.entries) && PlainEntries(dir, entries)
    requires w.directories <= MAX_DIRECTORIES && w.entries <= MAX_ENTRIES
    ensures Counts(w, WalkEntries(dir, entries, scope, relative, w), DirectoriesIn(dir, entries), EntriesIn(dir, entries))
    decreases dir, 0, |entries|
  {
    hide WalkEntry, PlainDirectory, DirectoryCount, EntryCount;
    if entries != [] {
      WalkEntryCounts(dir, entries[0], scope, relative, w);
      var first := WalkEntry(dir, entries[0], scope, relative, w);
      if first.Some? {
        WalkEntriesCount(dir, entries[1..], scope, relative, first.value);
      }
    }
  }

  lemma {:induction false} WalkEntryCounts(dir: Fs, e: Entry, scope: Path, relative: Path, w: Walk)
    requires dir.Dir? && e in dir.entries && (Hidden(e) || (e.node.File? && e.node.single) || PlainDirectory(e.node))
    requires w.directories <= MAX_DIRECTORIES && w.entries <= MAX_ENTRIES
    ensures
      Counts(w, WalkEntry(dir, e, scope, relative, w),
             if Hidden(e) then 0 else DirectoryCount(e.node), if Hidden(e) then 0 else 1 + EntryCount(e.node))
    decreases dir, 0, 0
  {
    hide WalkDirectory, YamlName;
    if !Hidden(e) && e.node.Dir? && w.entries + 1 <= MAX_ENTRIES {
      WalkCounts(e.node, scope, relative + [e.name], w.(entries := w.entries + 1));
    }
  }

  // ----- Well-made configurations

  /** An order in which files refer to later ones only, and how deep includes nest below each. */
  datatype Shape = Shape(order: Path -> nat, height: Path -> nat)

  /**
   Every file that is reached is readable and holds a regular document; included directories are plain; files
   do not refer to each other in circles; and includes nest no deeper than allowed.
   */
  ghost predicate WellMade(fs: Fs, shape: Shape) {
    Proper(fs) && Shaped(fs, shape)
  }

  ghost predicate Proper(fs: Fs) {
    && (forall from: (Path, Context) | Reachable(fs, from) :: WellRead(fs, from.0))
    && (forall from: (Path, Context), ref | Reachable(fs, from) && RefersTo(fs, from, ref) && ref.DirRef? :: Includable(fs, ref.path))
  }

  ghost predicate Shaped(fs: Fs, shape: Shape) {
    && shape.height(Root) <= MAX_DEPTH
    && forall from: (Path, Context), ref, to: (Path, Context) |
         Reachable(fs, from) && RefersTo(fs, from, ref) && Targets(fs, ref, to) :: Fits(shape, from.0, ref, to.0)
  }

  /** The nesting starts again at a secrets file. */
  predicate Fits(shape: Shape, from: Path, ref: Ref, to: Path) {
    && shape.order(to) < shape.order(from)
    && if ref.SecretRef? then shape.height(to) <= MAX_DEPTH else shape.height(to) < shape.height(from)
  }

  predicate WellRead(fs: Fs, p: Path) {
    ReadFile(fs, p).Found? && RegularContent(ReadFile(fs, p).file.content)
  }

  predicate RefersTo(fs: Fs, from: (Path, Context), ref: Ref) {
    && from.0 != [] && ReadFile(fs, from.0).Found?
    && ref in DocumentRefs(ReadFile(fs, from.0).file.content, from.0, from.1)
  }

  /** One more load, include, node, file or directory does not fit, or too many bytes were read already. */
  ghost predicate Full(fs: Fs, s: Scan) {
    || s.loads >= MAX_LOADS || s.includes >= MAX_INCLUDES || s.nodes >= MAX_NODES || s.totalBytes > MAX_BYTES
    || |s.sources| >= MAX_FILES
    || (exists p :: TooManyEvents(fs, s, p))
    || (exists d :: TooManyEntries(fs, s, d))
  }

  predicate TooManyEvents(fs: Fs, s: Scan, p: Path) {
    ReadFile(fs, p).Found? && s.events + ReadFile(fs, p).file.content.events > MAX_EVENTS
  }

  predicate TooManyEntries(fs: Fs, s: Scan, d: Path) {
    && OpenDirectory(fs, d).Found?
    && var dir := OpenDirectory(fs, d).file;
       s.directoriesSeen + DirectoryCount(dir) > MAX_DIRECTORIES || s.entries + EntryCount(dir) > MAX_ENTRIES
  }

  /** The counters within their limits. */
  predicate Within(s: Scan) {
    && s.loads <= MAX_LOADS && s.includes <= MAX_INCLUDES && s.nodes <= MAX_NODES && s.totalBytes <= MAX_BYTES
    && |s.sources| <= MAX_FILES && s.events <= MAX_EVENTS && s.directoriesSeen <= MAX_DIRECTORIES && s.entries <= MAX_ENTRIES
  }

  /** Denied only at a limit, and otherwise within them all. */
  ghost predicate Fine(fs: Fs, r: Progress) {
    if r.outcome.Denied? then Full(fs, r.scan) else Within(r.scan)
  }

  lemma SameFine(fs: Fs, r: Progress, stack: set<Path>, done: set<(Path, Context)>)
    requires Fine(fs, r)
    ensures Fine(fs, Progress(r.outcome, r.scan.(stack := stack, done := done)))
  {
    hide ReadFile, OpenDirectory, DirectoryCount, EntryCount;
    var t := r.scan.(stack := stack, done := done);
    if exists p :: TooManyEvents(fs, r.scan, p) {
      var p :| TooManyEvents(fs, r.scan, p);
      assert TooManyEvents(fs, t, p);
    }
    if exists d :: TooManyEntries(fs, r.scan, d) {
      var d :| TooManyEntries(fs, r.scan, d);
      assert TooManyEntries(fs, t, d);
    }
  }

  // ----- The references of a well-made configuration

  /** A file to load: absent, or reached and before the file that refers to it. */
  ghost predicate Loadable(fs: Fs, p: Path, context: Context, depth: nat, shape: Shape, below: nat) {
    if ReadFile(fs, p).Gone? then depth <= MAX_DEPTH
    else Reachable(fs, (p, context)) && shape.order(p) < below && depth + shape.height(p) <= MAX_DEPTH
  }

  ghost predicate Ready(fs: Fs, ref: Ref, shape: Shape, owner: Path) {
    && (ref.DirRef? ==> Includable(fs, ref.path))
    && forall target: (Path, Context) | Targets(fs, ref, target) :: Reachable(fs, target) && Fits(shape, owner, ref, target.0)
  }

  ghost predicate AllReady(fs: Fs, refs: set<Ref>, shape: Shape, owner: Path) {
    forall ref | ref in refs :: Ready(fs, ref, shape, owner)
  }

  lemma ReachedIsReady(fs: Fs, shape: Shape, from: (Path, Context))
    requires WellMade(fs, shape) && Reachable(fs, from) && from.0 != [] && ReadFile(fs, from.0).Found?
    ensures AllReady(fs, DocumentRefs(ReadFile(fs, from.0).file.content, from.0, from.1), shape, from.0)
  {
    hide ReadFile, Targets, Reachable, DocumentRefs, Includable, WellRead, Fits;
    forall ref | RefersTo(fs, from, ref) ensures Ready(fs, ref, shape, from.0) {
      forall target: (Path, Context) | Targets(fs, ref, target) ensures Reachable(fs, target) && Fits(shape, from.0, ref, target.0) {
        assert Loads(fs, from, target);
        NextIsReachable(fs, from, target);
      }
    }
  }

  // ----- The state of the scan

  /** The files being read are there, and shape at least so high. */
  ghost predicate Stacked(fs: Fs, s: Scan, shape: Shape, least: nat) {
    forall p | p in s.stack :: ReadFile(fs, p).Found? && shape.order(p) >= least
  }

  ghost predicate Standing(fs: Fs, s: Scan, shape: Shape, least: nat) {
    Closed(fs, s) && Within(s) && Stacked(fs, s, shape, least)
  }

  lemma StillStanding(fs: Fs, s: Scan, r: Progress, shape: Shape, least: nat)
    requires Standing(fs, s, shape, least) && Kept(fs, s, r) && Fine(fs, r) && !r.outcome.Denied? && r.scan.stack == s.stack
    ensures Standing(fs, r.scan, shape, least)
  {
    hide Closed, Grown, Within, Full, ReadFile;
  }

  // ----- Loading

  lemma OneMoreFile(sources: map<Path, Source>, p: Path)
    ensures |sources.Keys + {p}| <= |sources| + 1
  {
    if p in sources {
      assert sources.Keys + {p} == sources.Keys;
    } else {
      assert |sources.Keys + {p}| == |sources.Keys| + 1;
    }
  }

  predicate Tried(fs: Fs, s: Scan, p: Path, depth: nat) {
    depth <= MAX_DEPTH && p !in s.stack && s.loads + 1 <= MAX_LOADS && ReadFile(fs, p).Found?
  }

  /** A file that is not accepted is one too many, or too long. */
  lemma NotAccepted(fs: Fs, s: Scan, p: Path, depth: nat, context: Context)
    requires s.loads <= MAX_LOADS && Closed(fs, s) && Tried(fs, s, p, depth)
    requires
      var file := ReadFile(fs, p).file;
      !Acceptable(s.sources, s.totalBytes + file.size, p, file)
    ensures Fine(fs, Load(fs, s, p, depth, context))
  {
    hide ReadFile, DoneWell, ScopeOf, TooManyEvents, TooManyEntries, Visit, DefinesGrants;
    OneMoreFile(s.sources, p);
    assert p in s.sources ==> SourceOf(fs, p, s.sources[p]);
  }

  /** A document that is not parsed to its end has too many events. */
  lemma NotParsed(fs: Fs, s: Scan, p: Path, depth: nat, context: Context)
    requires s.loads <= MAX_LOADS && Tried(fs, s, p, depth)
    requires
      var file := ReadFile(fs, p).file;
      Acceptable(s.sources, s.totalBytes + file.size, p, file) && !file.content.Malformed? && !Parsable(s.events, file.content)
    ensures Fine(fs, Load(fs, s, p, depth, context))
  {
    hide ReadFile, Visit, Acceptable, DefinesGrants, TooManyEntries;
    assert TooManyEvents(fs, Load(fs, s, p, depth, context).scan, p);
  }

  /** A load that opens nothing ended at a limit, or found the file absent. */
  lemma NotOpened(fs: Fs, s: Scan, p: Path, depth: nat, context: Context, shape: Shape, below: nat)
    requires s.loads <= MAX_LOADS
    requires WellMade(fs, shape) && Standing(fs, s, shape, below) && Loadable(fs, p, context, depth, shape, below)
    requires !Opens(fs, s, p, depth, context)
    ensures Fine(fs, Load(fs, s, p, depth, context))
  {
    hide ReadFile, Load, Acceptable, Closed, WellMade, TooManyEvents, TooManyEntries;
    LoadableIsWellRead(fs, p, context, depth, shape, below);
    hide RegularContent, Reachable;
    if s.loads + 1 <= MAX_LOADS && ReadFile(fs, p).Found? {
      var file := ReadFile(fs, p).file;
      if Acceptable(s.sources, s.totalBytes + file.size, p, file) {
        NotParsed(fs, s, p, depth, context);
      } else {
        NotAccepted(fs, s, p, depth, context);
      }
    } else {
      NothingRead(fs, s, p, depth, context);
    }
  }

  lemma NothingRead(fs: Fs, s: Scan, p: Path, depth: nat, context: Context)
    requires Within(s) && depth <= MAX_DEPTH && p !in s.stack && (s.loads + 1 <= MAX_LOADS ==> ReadFile(fs, p).Gone?)
    ensures Fine(fs, Load(fs, s, p, depth, context))
  {
    hide ReadFile, Visit, Acceptable, TooManyEvents, TooManyEntries;
  }

  lemma LoadableIsWellRead(fs: Fs, p: Path, context: Context, depth: nat, shape: Shape, below: nat)
    requires WellMade(fs, shape) && Loadable(fs, p, context, depth, shape, below)
    ensures ReadFile(fs, p).Gone? || (WellRead(fs, p) && !ReadFile(fs, p).file.content.Malformed?)
  {
    hide ReadFile, Reachable, Regular, Loads, RefersTo;
    if !ReadFile(fs, p).Gone? {
      assert Reachable(fs, (p, context));
      assert WellRead(fs, p);
    }
  }

  lemma OpenedIsWithin(s: Scan, p: Path, file: Fs, context: Context)
    requires Within(s) && s.loads + 1 <= MAX_LOADS && file.File?
    requires Acceptable(s.sources, s.totalBytes + file.size, p, file) && Parsable(s.events, file.content)
    ensures Within(Opened(s, p, file, context))
  {
    hide DefinesGrants;
    var t := Opened(s, p, file, context);
    assert t.sources.Keys == s.sources.Keys + {p};
  }

  lemma OpenedStands(fs: Fs, s: Scan, p: Path, depth: nat, context: Context, shape: Shape, below: nat)
    requires Standing(fs, s, shape, below) && Opens(fs, s, p, depth, context) && shape.order(p) < below
    ensures Standing(fs, Opened(s, p, ReadFile(fs, p).file, context), shape, shape.order(p))
  {
    hide ReadFile, Closed, Grown, SourceOf, DefinesGrants, Acceptable, Parsable, Within;
    OpenedKept(fs, s, p, depth, context);
    OpenedIsWithin(s, p, ReadFile(fs, p).file, context);
  }

  lemma {:induction false} LoadFine(fs: Fs, s: Scan, p: Path, depth: nat, context: Context, shape: Shape, below: nat)
    requires s.loads <= MAX_LOADS
    requires WellMade(fs, shape) && Standing(fs, s, shape, below) && Loadable(fs, p, context, depth, shape, below)
    ensures Fine(fs, Load(fs, s, p, depth, context))
    decreases MAX_LOADS + 1 - s.loads, 0, 0
  {
    hide ReadFile, Load, Visit, WellMade, Standing, Reachable, Fine, Opened, Visited;
    if Opens(fs, s, p, depth, context) {
      LoadCases(fs, s, p, depth, context);
      OpenedStands(fs, s, p, depth, context, shape, below);
      VisitedFine(fs, s, p, depth, context, shape);
      var inner := Visited(fs, s, p, depth, context);
      SameFine(fs, inner, s.stack, if inner.outcome.Ok? then inner.scan.done + {(p, context)} else inner.scan.done);
    } else {
      NotOpened(fs, s, p, depth, context, shape, below);
    }
  }

  lemma VisitedFine(fs: Fs, s: Scan, p: Path, depth: nat, context: Context, shape: Shape)
    requires s.loads <= MAX_LOADS && Opens(fs, s, p, depth, context) && p != []
    requires WellMade(fs, shape) && Standing(fs, Opened(s, p, ReadFile(fs, p).file, context), shape, shape.order(p))
    requires Reachable(fs, (p, context)) && depth + shape.height(p) <= MAX_DEPTH
    ensures Fine(fs, Visited(fs, s, p, depth, context))
    decreases MAX_LOADS + 1 - s.loads, 0, 0, 0
  {
    assert WellRead(fs, p);
    hide WellMade, Reachable, Closed, Stacked, Visit, ReadFile, AllReady, Full, Within;
    ReachedIsReady(fs, shape, (p, context));
    var file := ReadFile(fs, p).file;
    if !file.content.Empty? {
      VisitFine(fs, Opened(s, p, file, context), file.content.root, p, depth, 1, context, shape);
    }
  }

  lemma {:induction false} LoadAllFine(fs: Fs, s: Scan, files: seq<Path>, depth: nat, context: Context, shape: Shape, below: nat)
    requires s.loads <= MAX_LOADS && WellMade(fs, shape) && Standing(fs, s, shape, below)
    requires forall f | f in files :: Loadable(fs, f, context, depth, shape, below)
    ensures Fine(fs, LoadAll(fs, s, files, depth, context))
    decreases MAX_LOADS + 1 - s.loads, 0, 1 + |files|
  {
    hide WellMade, Load, Loadable, Closed, Stacked, Within, Full;
    if files != [] {
      assert Loadable(fs, files[0], context, depth, shape, below);
      var first := Load(fs, s, files[0], depth, context);
      LoadFine(fs, s, files[0], depth, context, shape, below);
      if first.outcome.Ok? {
        LoadKeeps(fs, s, files[0], depth, context);
        StillStanding(fs, s, first, shape, below);
        LoadAllFine(fs, first.scan, files[1..], depth, context, shape, below);
      }
    }
  }

  /** One secrets file: absent, or loaded. */
  lemma CandidateFine(fs: Fs, s: Scan, q: Path, context: Context, shape: Shape, below: nat)
    requires s.loads <= MAX_LOADS && WellMade(fs, shape) && Standing(fs, s, shape, below) && Loadable(fs, q, context, 0, shape, below)
    ensures
      var first := Load(fs, s.(secrets := s.secrets + {q}), q, 0, context);
      var later := if first.outcome.Missing? && !ReadFile(fs, q).Gone? then first.scan.(swallowed := first.scan.swallowed + {q}) else first.scan;
      Fine(fs, first) && (!first.outcome.Denied? ==> Standing(fs, later, shape, below))
    decreases MAX_LOADS + 1 - s.loads, 0, 1
  {
    hide WellMade, Load, Loadable, Closed, ReadFile, Full;
    var named := s.(secrets := s.secrets + {q});
    CandidateKeeps(fs, s, q, context);
    NamedIsClosed(fs, s, q);
    assert Stacked(fs, named, shape, below);
    LoadFine(fs, named, q, 0, context, shape, below);
  }

  lemma NamedIsClosed(fs: Fs, s: Scan, q: Path)
    requires Closed(fs, s)
    ensures Closed(fs, s.(secrets := s.secrets + {q}))
  {
    hide SourceOf, ScopeOf, DoneWell;
    StaysClosed(fs, s, s.(secrets := s.secrets + {q}));
  }

  lemma CandidateIsLoadable(fs: Fs, parent: Path, index: nat, context: Context, depth: nat, shape: Shape, owner: Path)
    requires index <= |parent| && depth + shape.height(owner) <= MAX_DEPTH && Ready(fs, SecretRef(parent, context), shape, owner)
    ensures Loadable(fs, parent[..index] + ["secrets.yaml"], context, 0, shape, shape.order(owner))
  {
    hide ReadFile, Reachable;
    var q := parent[..index] + ["secrets.yaml"];
    assert !ReadFile(fs, q).Gone? ==> Targets(fs, SecretRef(parent, context), (q, context));
  }

  lemma {:induction false} SecretsFine(fs: Fs, s: Scan, parent: Path, index: nat, context: Context, depth: nat, shape: Shape, owner: Path)
    requires s.loads <= MAX_LOADS && index <= |parent| && WellMade(fs, shape) && Standing(fs, s, shape, shape.order(owner))
    requires depth + shape.height(owner) <= MAX_DEPTH && Ready(fs, SecretRef(parent, context), shape, owner)
    ensures Fine(fs, SecretCandidates(fs, s, parent, index, context))
    decreases MAX_LOADS + 1 - s.loads, 0, 2 + index
  {
    hide WellMade, Load, Loadable, Standing, ReadFile, Full, Ready;
    var q := parent[..index] + ["secrets.yaml"];
    CandidateIsLoadable(fs, parent, index, context, depth, shape, owner);
    CandidateFine(fs, s, q, context, shape, shape.order(owner));
    var first := Load(fs, s.(secrets := s.secrets + {q}), q, 0, context);
    var later := if first.outcome.Missing? && !ReadFile(fs, q).Gone? then first.scan.(swallowed := first.scan.swallowed + {q}) else first.scan;
    if !first.outcome.Denied? && index > 0 {
      SecretsFine(fs, later, parent, index - 1, context, depth, shape, owner);
    }
  }

  // ----- Directories

  /** A walk of an included directory that stops found too much. */
  lemma WalkFine(fs: Fs, s: Scan, d: Path)
    requires Within(s) && Includable(fs, d)
    ensures
      var walk := WalkDirectory(OpenDirectory(fs, d).file, d, [], Walk(s.directoriesSeen, s.entries, {}, []));
      if walk.None? then Full(fs, s) else walk.value.directories <= MAX_DIRECTORIES && walk.value.entries <= MAX_ENTRIES
  {
    hide OpenDirectory, WalkDirectory, PlainDirectory, DirectoryCount, EntryCount, ReadFile, TooManyEvents;
    var dir := OpenDirectory(fs, d).file;
    var w := Walk(s.directoriesSeen, s.entries, {}, []);
    WalkCounts(dir, d, [], w);
    if WalkDirectory(dir, d, [], w).None? {
      assert TooManyEntries(fs, s, d);
    }
  }

  lemma FilesAreLoadable(fs: Fs, d: Path, w: Walk, scope: Scope, context: Context, depth: nat, shape: Shape, owner: Path)
    requires Listed(w, d) && ScopeOf(fs, d, scope) && scope.inventory == w.inventory
    requires Ready(fs, DirRef(d, context), shape, owner) && depth + shape.height(owner) <= MAX_DEPTH
    ensures forall f | f in w.files :: Loadable(fs, f, context, depth + 1, shape, shape.order(owner))
  {
    hide ReadFile, OpenDirectory, Under, Reachable, PlainDirectory;
    forall p | p in w.files ensures Loadable(fs, p, context, depth + 1, shape, shape.order(owner)) {
      var f :| f in w.inventory && p == d + f;
      assert p[|d|..] == f;
      assert Targets(fs, DirRef(d, context), (p, context));
    }
  }

  /** The same directory has the same scope, so a second include of it is not refused. */
  lemma ScopeIsFixed(fs: Fs, d: Path, a: Scope, b: Scope)
    requires ScopeOf(fs, d, a) && ScopeOf(fs, d, b)
    ensures a == b
  {
    hide OpenDirectory, Under;
    assert forall f :: f in a.inventory <==> f in b.inventory;
    assert a.inventory == b.inventory;
  }

  lemma IncludeDirectoryFine(fs: Fs, s: Scan, d: Path, depth: nat, context: Context, shape: Shape, owner: Path)
    requires s.loads <= MAX_LOADS && WellMade(fs, shape) && Standing(fs, s, shape, shape.order(owner))
    requires Ready(fs, DirRef(d, context), shape, owner) && depth + shape.height(owner) <= MAX_DEPTH
    ensures Fine(fs, IncludeDirectory(fs, s, d, depth + 1, context))
    decreases MAX_LOADS + 1 - s.loads, 1, 0
  {
    assert Includable(fs, d);
    hide WellMade, LoadAll, OpenDirectory, WalkDirectory, Listed, ReadFile, ScopeOf, Full, Ready, PlainDirectory, Loadable, DoneWell, SourceOf;
    var dir, start := OpenDirectory(fs, d).file, Walk(s.directoriesSeen, s.entries, {}, []);
    var walk := WalkDirectory(dir, d, [], start);
    WalkFine(fs, s, d);
    if walk.Some? {
      var scope := Scope(dir.info, walk.value.inventory);
      NothingListed(s.directoriesSeen, s.entries, d);
      WalkDirectoryListed(dir, d, [], start);
      WalkIsScope(fs, d, start);
      FilesAreLoadable(fs, d, walk.value, scope, context, depth, shape, owner);
      ScopedStands(fs, s, d, scope, walk.value, shape, owner);
      LoadAllFine(fs, Scoped(s, d, scope, walk.value), walk.value.files, depth + 1, context, shape, shape.order(owner));
    }
  }

  function Scoped(s: Scan, d: Path, scope: Scope, w: Walk): Scan {
    s.(directoriesSeen := w.directories, entries := w.entries, directories := s.directories[d := scope])
  }

  lemma ScopedStands(fs: Fs, s: Scan, d: Path, scope: Scope, w: Walk, shape: Shape, owner: Path)
    requires Standing(fs, s, shape, shape.order(owner)) && ScopeOf(fs, d, scope) && w.directories <= MAX_DIRECTORIES && w.entries <= MAX_ENTRIES
    ensures d in s.directories ==> s.directories[d] == scope
    ensures Standing(fs, Scoped(s, d, scope, w), shape, shape.order(owner))
  {
    hide ReadFile, ScopeOf, SourceOf, DoneWell;
    if d in s.directories {
      ScopeIsFixed(fs, d, s.directories[d], scope);
    }
    StaysClosed(fs, s, Scoped(s, d, scope, w));
  }

  // ----- Documents

  lemma {:induction false} VisitFine(fs: Fs, s: Scan, n: Node, current: Path, depth: nat, nodeDepth: nat, context: Context,
                                     shape: Shape)
    requires s.loads <= MAX_LOADS && current != [] && WellMade(fs, shape)
    requires Standing(fs, s, shape, shape.order(current)) && depth + shape.height(current) <= MAX_DEPTH
    requires Regular(n, nodeDepth) && AllReady(fs, Refs(n, current, context), shape, current)
    ensures Fine(fs, Visit(fs, s, n, current, depth, nodeDepth, context))
    decreases MAX_LOADS + 1 - s.loads, 2 + Size(n), 1
  {
    hide WellMade, Closed, Stacked, AllReady, VisitTag, VisitItems, VisitPairs, TagRefs, ItemRefs, PairRefs, RegularItems, RegularPairs,
      Parts, TooManyEntries, TooManyEvents;
    if s.nodes < MAX_NODES {
      var counted := s.(nodes := s.nodes + 1);
      CountedStands(fs, s, counted, shape, shape.order(current));
      if !n.tag.Yaml? {
        VisitTagFine(fs, counted, n, current, depth, context, shape, nodeDepth);
      } else {
        match n
        case Scalar(_, _) =>
        case Sequence(_, items) => VisitItemsFine(fs, counted, items, current, depth, nodeDepth, context, shape);
        case Mapping(_, pairs) => VisitPairsFine(fs, counted, pairs, {}, current, depth, nodeDepth, context, shape);
      }
    }
  }

  lemma CountedStands(fs: Fs, s: Scan, t: Scan, shape: Shape, below: nat)
    requires Standing(fs, s, shape, below) && Within(t) && SameFacts(s, t) && t.stack == s.stack
    ensures Standing(fs, t, shape, below)
  {
    hide Closed, ReadFile;
    SameFactsKept(fs, s, t);
  }

  lemma {:induction false} VisitTagFine(fs: Fs, s: Scan, n: Node, current: Path, depth: nat, context: Context,
                                        shape: Shape, level: nat)
    requires s.loads <= MAX_LOADS && current != [] && WellMade(fs, shape)
    requires Standing(fs, s, shape, shape.order(current)) && depth + shape.height(current) <= MAX_DEPTH
    requires Regular(n, level) && !n.tag.Yaml? && AllReady(fs, TagRefs(n, current, context), shape, current)
    ensures Fine(fs, VisitTag(fs, s, n, current, depth, context))
    decreases MAX_LOADS + 1 - s.loads, 2 + Size(n), 0
  {
    hide WellMade, Closed, Stacked, Load, IncludeDirectory, SecretCandidates, Parts, Ready, TooManyEntries, TooManyEvents;
    var here := current[..|current| - 1];
    if n.tag.Secret? {
      assert Ready(fs, SecretRef(here, context), shape, current);
      SecretsFine(fs, s, here, |here|, context, depth, shape, current);
    } else if !n.tag.EnvVar? && !n.tag.Input? && s.includes < MAX_INCLUDES {
      var target, counted := here + Parts(n.value).value, s.(includes := s.includes + 1);
      CountedStands(fs, s, counted, shape, shape.order(current));
      if n.tag.Include? {
        assert Ready(fs, FileRef(target, context), shape, current);
        IncludedFine(fs, counted, target, depth, context, shape, current);
      } else {
        assert Ready(fs, DirRef(target, context), shape, current);
        IncludeDirectoryFine(fs, counted, target, depth, context, shape, current);
      }
    }
  }

  lemma IncludedFine(fs: Fs, s: Scan, q: Path, depth: nat, context: Context, shape: Shape, owner: Path)
    requires s.loads <= MAX_LOADS && WellMade(fs, shape) && Standing(fs, s, shape, shape.order(owner))
    requires Ready(fs, FileRef(q, context), shape, owner) && depth + shape.height(owner) <= MAX_DEPTH
    ensures Fine(fs, Load(fs, s, q, depth + 1, context))
    decreases MAX_LOADS + 1 - s.loads, 1, 0
  {
    assert Targets(fs, FileRef(q, context), (q, context));
    assert Reachable(fs, (q, context)) && Fits(shape, owner, FileRef(q, context), q);
    assert WellRead(fs, q);
    hide WellMade, Standing, Load, ReadFile, Reachable, Full, Ready;
    LoadFine(fs, s, q, depth + 1, context, shape, shape.order(owner));
  }

  lemma {:induction false} VisitItemsFine(fs: Fs, s: Scan, items: seq<Node>, current: Path, depth: nat, nodeDepth: nat, context: Context,
                                          shape: Shape)
    requires s.loads <= MAX_LOADS && current != [] && WellMade(fs, shape)
    requires Standing(fs, s, shape, shape.order(current)) && depth + shape.height(current) <= MAX_DEPTH
    requires RegularItems(items, nodeDepth) && AllReady(fs, ItemRefs(items, current, context), shape, current)
    ensures Fine(fs, VisitItems(fs, s, items, current, depth, nodeDepth, context))
    decreases MAX_LOADS + 1 - s.loads, 2 + SizeAll(items), 2
  {
    hide WellMade, Closed, Stacked, Visit, Refs, Regular, Ready, Full, Kept;
    if items != [] {
      VisitFine(fs, s, items[0], current, depth, nodeDepth + 1, context, shape);
      var first := Visit(fs, s, items[0], current, depth, nodeDepth + 1, context);
      if first.outcome.Ok? {
        VisitKeeps(fs, s, items[0], current, depth, nodeDepth + 1, context);
        StillStanding(fs, s, first, shape, shape.order(current));
        VisitItemsFine(fs, first.scan, items[1..], current, depth, nodeDepth, context, shape);
      }
    }
  }

  lemma {:induction false} VisitPairsFine(fs: Fs, s: Scan, pairs: seq<Pair>, keys: set<(Tag, string)>, current: Path, depth: nat,
                                          nodeDepth: nat, context: Context, shape: Shape)
    requires s.loads <= MAX_LOADS && current != [] && WellMade(fs, shape)
    requires Standing(fs, s, shape, shape.order(current)) && depth + shape.height(current) <= MAX_DEPTH
    requires RegularPairs(pairs, keys, nodeDepth) && AllReady(fs, PairRefs(pairs, current, context), shape, current)
    ensures Fine(fs, VisitPairs(fs, s, pairs, keys, current, depth, nodeDepth, context))
    decreases MAX_LOADS + 1 - s.loads, 2 + SizePairs(pairs), 2
  {
    hide WellMade, Closed, Stacked, Visit, Refs, Regular, Ready, Full, Kept, ChildContext;
    if pairs != [] {
      var key, value := pairs[0].key, pairs[0].value;
      var child := ChildContext(key, context);
      assert SizePairs(pairs) == SizePair(pairs[0]) + SizePairs(pairs[1..]) && SizePair(pairs[0]) == 1 + Size(key) + Size(value);
      assert forall ref :: ref in OnePairRefs(pairs[0], current, context) ==> Ready(fs, ref, shape, current);
      VisitFine(fs, s, key, current, depth, nodeDepth + 1, context, shape);
      var first := Visit(fs, s, key, current, depth, nodeDepth + 1, context);
      if first.outcome.Ok? {
        VisitKeeps(fs, s, key, current, depth, nodeDepth + 1, context);
        StillStanding(fs, s, first, shape, shape.order(current));
        VisitFine(fs, first.scan, value, current, depth, nodeDepth + 1, child, shape);
        var second := Visit(fs, first.scan, value, current, depth, nodeDepth + 1, child);
        if second.outcome.Ok? {
          VisitKeeps(fs, first.scan, value, current, depth, nodeDepth + 1, child);
          StillStanding(fs, first.scan, second, shape, shape.order(current));
          var seen := if key.Scalar? then keys + {(key.tag, key.value)} else keys;
          VisitPairsFine(fs, second.scan, pairs[1..], seen, current, depth, nodeDepth, context, shape);
        }
      }
    }
  }

  // ----- The theorem

  lemma WellMadeIsPresent(fs: Fs, shape: Shape)
    requires WellMade(fs, shape)
    ensures NothingMissing(fs)
  {
    hide ReadFile, OpenDirectory, Under, Reachable, DocumentRefs, PlainDirectory, RegularContent;
    forall from: (Path, Context), ref |
      Reachable(fs, from) && from.0 != [] && ReadFile(fs, from.0).Found? &&
      ref in DocumentRefs(ReadFile(fs, from.0).file.content, from.0, from.1)
      ensures Present(fs, ref)
    {
      assert RefersTo(fs, from, ref);
      ReachedIsReady(fs, shape, from);
      assert Ready(fs, ref, shape, from.0);
      if ref.FileRef? {
        assert Targets(fs, ref, (ref.path, ref.context));
        assert WellRead(fs, ref.path);
      } else if ref.DirRef? {
        forall f | Under(OpenDirectory(fs, ref.path).file, f) ensures !ReadFile(fs, ref.path + f).Gone? {
          assert (ref.path + f)[|ref.path|..] == f;
          assert Targets(fs, ref, (ref.path + f, ref.context));
          assert WellRead(fs, ref.path + f);
        }
      }
    }
  }

  /**
   A well-made configuration is scanned completely, unless a limit is reached: a complete scan keeps within every
   limit, and an incomplete one ended where something more does not fit.
   */
  lemma ScanIsComplete(fs: Fs, shape: Shape)
    requires WellMade(fs, shape)
    ensures
      var r := Scanned(fs);
      if r.outcome.Ok? then Within(r.scan) && r.scan.swallowed == {} else Full(fs, r.scan)
  {
    hide ReadFile, Load, Reachable, Full, Within;
    RootIsReachable(fs);
    assert WellRead(fs, Root);
    WellMadeIsPresent(fs, shape);
    NewStands(fs, shape);
    LoadIsWhole(fs, NewScan, Root, 0, []);
    LoadFine(fs, NewScan, Root, 0, [], shape, shape.order(Root) + 1);
  }

  lemma NewStands(fs: Fs, shape: Shape)
    ensures Standing(fs, NewScan, shape, shape.order(Root) + 1)
  {
    hide ReadFile;
    NewIsClosed(fs);
  }

  /** Conversely: only such files and directories are taken in by a complete scan that ignored nothing. */
  lemma CompleteIsProper(fs: Fs)
    requires Scanned(fs).outcome.Ok? && Scanned(fs).scan.swallowed == {}
    ensures Proper(fs)
  {
    hide Load, ReadFile, OpenDirectory, DocumentRefs, Closed, Loads, Under, RegularContent, PlainDirectory;
    var s := Scanned(fs).scan;
    ScanIsClosed(fs);
    forall from: (Path, Context) | Reachable(fs, from)
      ensures WellRead(fs, from.0)
      ensures forall ref | RefersTo(fs, from, ref) && ref.DirRef? :: Includable(fs, ref.path)
    {
      var chain :| Chain(fs, chain) && chain[|chain| - 1] == from;
      ChainIsDone(fs, s, chain, |chain| - 1);
      DoneIsProper(fs, s, from);
    }
  }

  lemma DoneIsProper(fs: Fs, s: Scan, from: (Path, Context))
    requires Closed(fs, s) && from in s.done
    ensures WellRead(fs, from.0)
    ensures forall ref | RefersTo(fs, from, ref) && ref.DirRef? :: Includable(fs, ref.path)
  {
    hide ReadFile, OpenDirectory, DocumentRefs, Under, RegularContent, PlainDirectory, DefinesGrants;
    assert DoneWell(fs, s, from.0, from.1) && SourceOf(fs, from.0, s.sources[from.0]);
    forall ref | RefersTo(fs, from, ref) && ref.DirRef? ensures Includable(fs, ref.path) {
      assert Settled(fs, s, ref);
      assert ScopeOf(fs, ref.path, s.directories[ref.path]);
    }
  }

  // ----- Operands

  /** A name in a path: not empty, not a step in place or upwards, no separator and no control character. */
  predicate PlainName(part: string) {
    part != "" && part != "." && part != ".." && '/' !in part && '\\' !in part && forall c | c in part :: c >= ' '
  }

  /** A text is taken apart exactly when it is made of such names. */
  lemma PartsExactly(path: string, parts: Path)
    ensures Parts(path) == Some(parts) <==>
            parts != [] && path == Definitions.Joined(parts) && forall part | part in parts :: PlainName(part)
  {
    if parts != [] && path == Definitions.Joined(parts) && forall part | part in parts :: PlainName(part) {
      NamesAreParts(parts);
    }
    if Parts(path) == Some(parts) {
      PartsAreNames(path);
    }
  }

  lemma NamesAreParts(parts: Path)
    requires parts != [] && forall part | part in parts :: PlainName(part)
    ensures Parts(Definitions.Joined(parts)) == Some(parts)
  {
    Definitions.SplitJoined(parts);
    assert parts[0] in parts;
    var path := Definitions.Joined(parts);
    assert path != "" && path[0] != '/';
    forall c | c in path ensures c != '\\' && c >= ' ' {
      if c != '/' {
        Definitions.JoinedHas(parts, c);
      }
    }
  }

  lemma PartsAreNames(path: string)
    requires Parts(path).Some?
    ensures Parts(path).value != [] && path == Definitions.Joined(Parts(path).value)
    ensures forall part | part in Parts(path).value :: PlainName(part)
  {
    var parts := Parts(path).value;
    Definitions.JoinSplit(path);
    Definitions.SplitHasPieces(path);
    Definitions.PiecesHaveNone(path);
    hide Definitions.Joined, PatchParser.Split;
    forall part, c | part in parts && c in part ensures c != '\\' && c >= ' ' {
      if c != '/' {
        Definitions.JoinedHas(parts, c);
      }
    }
  }
}
