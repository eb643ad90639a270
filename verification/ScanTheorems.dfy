/**
 What a complete scan protects, and which part of the file tree its authority fixes.
 */
module ScanTheorems {
  import opened Models
  import opened SourceGraph
  import opened ScanSafety

  lemma NewIsClosed(fs: Fs)
    ensures Closed(fs, NewScan)
  {
  }

  lemma ScanIsClosed(fs: Fs)
    requires Scanned(fs).outcome.Ok?
    ensures Closed(fs, Scanned(fs).scan) && (Root, []) in Scanned(fs).scan.done
  {
    hide Load, Closed;
    NewIsClosed(fs);
    LoadKeeps(fs, NewScan, Root, 0, []);
  }

  // ----- Reachable files

  /** What a reference makes Home Assistant load: a file, every file below a directory, every secrets file there is. */
  ghost predicate Targets(fs: Fs, ref: Ref, target: (Path, Context)) {
    match ref
    case FileRef(q, context) => target == (q, context)
    case DirRef(d, context) =>
      target.1 == context && OpenDirectory(fs, d).Found? && d <= target.0 && Under(OpenDirectory(fs, d).file, target.0[|d|..])
    case SecretRef(parent, context) =>
      target.1 == context && !ReadFile(fs, target.0).Gone? &&
      exists i :: 0 <= i <= |parent| && target.0 == parent[..i] + ["secrets.yaml"]
  }

  /** A file with the context it is loaded in, and one it refers to. */
  ghost predicate Loads(fs: Fs, from: (Path, Context), to: (Path, Context)) {
    && from.0 != [] && ReadFile(fs, from.0).Found?
    && exists ref :: ref in DocumentRefs(ReadFile(fs, from.0).file.content, from.0, from.1) && Targets(fs, ref, to)
  }

  ghost predicate Chain(fs: Fs, chain: seq<(Path, Context)>) {
    && chain != [] && chain[0] == (Root, [])
    && forall i | 0 <= i < |chain| - 1 :: Loads(fs, chain[i], chain[i + 1])
  }

  lemma TargetIsDone(fs: Fs, s: Scan, ref: Ref, target: (Path, Context))
    requires Closed(fs, s) && Settled(fs, s, ref) && s.swallowed == {} && Targets(fs, ref, target)
    ensures target in s.done
  {
    hide ReadFile, OpenDirectory, Under, DoneWell, SourceOf;
    if ref.DirRef? {
      var f := target.0[|ref.path|..];
      assert target.0 == ref.path + f;
      assert ScopeOf(fs, ref.path, s.directories[ref.path]);
      assert f in s.directories[ref.path].inventory;
    } else if ref.SecretRef? {
      var i :| 0 <= i <= |ref.parent| && target.0 == ref.parent[..i] + ["secrets.yaml"];
      assert SecretSettled(fs, s, target.0, ref.context);
    }
  }

  lemma NextIsDone(fs: Fs, s: Scan, from: (Path, Context), to: (Path, Context))
    requires Closed(fs, s) && s.swallowed == {} && from in s.done && Loads(fs, from, to)
    ensures to in s.done
  {
    hide ReadFile, Settled, Targets, ScopeOf;
    assert DoneWell(fs, s, from.0, from.1) && SourceOf(fs, from.0, s.sources[from.0]);
    var ref :| ref in DocumentRefs(ReadFile(fs, from.0).file.content, from.0, from.1) && Targets(fs, ref, to);
    assert Settled(fs, s, ref);
    TargetIsDone(fs, s, ref, to);
  }

  lemma {:induction false} ChainIsDone(fs: Fs, s: Scan, chain: seq<(Path, Context)>, i: nat)
    requires Closed(fs, s) && s.swallowed == {} && (Root, []) in s.done && Chain(fs, chain) && i < |chain|
    ensures chain[i] in s.done
  {
    hide Closed, Loads;
    if i > 0 {
      ChainIsDone(fs, s, chain, i - 1);
      assert Loads(fs, chain[i - 1], chain[i]);
      NextIsDone(fs, s, chain[i - 1], chain[i]);
    }
  }

  /**
   A complete scan that ignored no missing include protects every file Home Assistant can load, with the
   content it was read with; and counts it as a grant source when a context it is loaded in defines grants.
   */
  lemma ReachedIsProtected(fs: Fs, chain: seq<(Path, Context)>, i: nat)
    requires Scanned(fs).outcome.Ok? && Scanned(fs).scan.swallowed == {} && Chain(fs, chain) && i < |chain|
    ensures
      var g, p := GraphOf(Scanned(fs).scan), chain[i].0;
      && g.ProtectsPath(p)
      && ReadFile(fs, p).Found? && p in g.sources && g.sources[p].content == ReadFile(fs, p).file.content
      && (DefinesGrants(chain[i].1) ==> p in g.grants)
  {
    hide ReadFile, AllSettled, Chain, Scanned, ScopeOf, DefinesGrants;
    var s := Scanned(fs).scan;
    ScanIsClosed(fs);
    ChainIsDone(fs, s, chain, i);
    assert DoneWell(fs, s, chain[i].0, chain[i].1) && SourceOf(fs, chain[i].0, s.sources[chain[i].0]);
  }

  /** So are a whole included directory, and the places where a secrets file might yet appear. */
  lemma ReferencesAreProtected(fs: Fs, chain: seq<(Path, Context)>, i: nat, ref: Ref)
    requires Scanned(fs).outcome.Ok? && Scanned(fs).scan.swallowed == {} && Chain(fs, chain) && i < |chain|
    requires ReadFile(fs, chain[i].0).Found? && chain[i].0 != []
    requires ref in DocumentRefs(ReadFile(fs, chain[i].0).file.content, chain[i].0, chain[i].1)
    ensures
      var g := GraphOf(Scanned(fs).scan);
      match ref
      case FileRef(q, _) => g.ProtectsPath(q)
      case DirRef(d, _) => forall path | d <= path :: g.ProtectsPath(path)
      case SecretRef(parent, _) => forall k | 0 <= k <= |parent| :: g.ProtectsPath(parent[..k] + ["secrets.yaml"])
  {
    hide ReadFile, Chain, Scanned, ScopeOf, DefinesGrants, DocumentRefs;
    var s := Scanned(fs).scan;
    ScanIsClosed(fs);
    ChainIsDone(fs, s, chain, i);
    assert DoneWell(fs, s, chain[i].0, chain[i].1) && SourceOf(fs, chain[i].0, s.sources[chain[i].0]);
    assert Settled(fs, s, ref);
    if ref.FileRef? {
      assert DoneWell(fs, s, ref.path, ref.context);
    } else if ref.SecretRef? {
      forall k | 0 <= k <= |ref.parent| ensures GraphOf(s).ProtectsPath(ref.parent[..k] + ["secrets.yaml"]) {
        assert SecretSettled(fs, s, ref.parent[..k] + ["secrets.yaml"], ref.context);
      }
    }
  }

  /** While the authority is unchanged, the snapshot taken at the start protects every file that can be loaded now. */
  lemma AuthorityKeepsProtection(boot: Graph, fs: Fs, chain: seq<(Path, Context)>, i: nat)
    requires Scanned(fs).outcome.Ok? && Scanned(fs).scan.swallowed == {} && Chain(fs, chain) && i < |chain|
    requires GraphOf(Scanned(fs).scan).SameAuthorityAs(boot)
    ensures boot.ProtectsPath(chain[i].0)
    ensures DefinesGrants(chain[i].1) ==>
              ReadFile(fs, chain[i].0).Found? && chain[i].0 in boot.sources &&
              boot.sources[chain[i].0].content == ReadFile(fs, chain[i].0).file.content
  {
    hide ReadFile, Chain, Scanned, DefinesGrants;
    ReachedIsProtected(fs, chain, i);
  }

  /** The same authority protects the same paths: no path gains or loses protection by an edit that keeps it. */
  lemma SameAuthorityProtects(now: Graph, boot: Graph, path: Path, name: string)
    requires now.SameAuthorityAs(boot)
    ensures now.ProtectsPath(path) <==> boot.ProtectsPath(path)
    ensures now.Protects(name) <==> boot.Protects(name)
  {
    hide Parts;
  }

  // ----- When no missing include is ignored

  ghost predicate Present(fs: Fs, ref: Ref) {
    match ref
    case FileRef(q, _) => !ReadFile(fs, q).Gone?
    case DirRef(d, _) =>
      && !OpenDirectory(fs, d).Gone?
      && forall f | OpenDirectory(fs, d).Found? && Under(OpenDirectory(fs, d).file, f) :: !ReadFile(fs, d + f).Gone?
    case SecretRef(_, _) => true
  }

  ghost predicate Reachable(fs: Fs, target: (Path, Context)) {
    exists chain :: Chain(fs, chain) && chain[|chain| - 1] == target
  }

  /** Every include in every document that is reached names something that exists. */
  ghost predicate NothingMissing(fs: Fs) {
    forall from: (Path, Context), ref |
      Reachable(fs, from) && from.0 != [] && ReadFile(fs, from.0).Found? &&
      ref in DocumentRefs(ReadFile(fs, from.0).file.content, from.0, from.1) :: Present(fs, ref)
  }

  /** The reference is present, and whatever it makes Home Assistant load is reached. */
  ghost predicate Sound(fs: Fs, ref: Ref) {
    Present(fs, ref) && forall target | Targets(fs, ref, target) :: Reachable(fs, target)
  }

  ghost predicate AllSound(fs: Fs, refs: set<Ref>) {
    forall ref | ref in refs :: Sound(fs, ref)
  }

  lemma RootIsReachable(fs: Fs)
    ensures Reachable(fs, (Root, []))
  {
    var chain := [(Root, [])];
    assert Chain(fs, chain) && chain[|chain| - 1] == (Root, []);
  }

  lemma NextIsReachable(fs: Fs, from: (Path, Context), to: (Path, Context))
    requires Reachable(fs, from) && Loads(fs, from, to)
    ensures Reachable(fs, to)
  {
    hide Loads;
    var chain :| Chain(fs, chain) && chain[|chain| - 1] == from;
    var longer := chain + [to];
    forall i | 0 <= i < |longer| - 1 ensures Loads(fs, longer[i], longer[i + 1]) {
      assert i < |chain| - 1 ==> Loads(fs, chain[i], chain[i + 1]);
    }
    assert Chain(fs, longer) && longer[|longer| - 1] == to;
  }

  lemma ReachedIsSound(fs: Fs, from: (Path, Context))
    requires NothingMissing(fs) && Reachable(fs, from) && from.0 != [] && ReadFile(fs, from.0).Found?
    ensures AllSound(fs, DocumentRefs(ReadFile(fs, from.0).file.content, from.0, from.1))
  {
    hide ReadFile, Present, Targets, Reachable, DocumentRefs;
    var refs := DocumentRefs(ReadFile(fs, from.0).file.content, from.0, from.1);
    forall ref | ref in refs ensures Sound(fs, ref) {
      forall target | Targets(fs, ref, target) ensures Reachable(fs, target) {
        assert Loads(fs, from, target);
        NextIsReachable(fs, from, target);
      }
    }
  }

  /** Nothing was found missing, and nothing was ignored. */
  predicate Whole(s: Scan, r: Progress) {
    !r.outcome.Missing? && (r.outcome.Ok? ==> r.scan.swallowed == s.swallowed)
  }

  lemma {:induction false} LoadIsWhole(fs: Fs, s: Scan, parts: Path, depth: nat, context: Context)
    requires s.loads <= MAX_LOADS && NothingMissing(fs)
    requires ReadFile(fs, parts).Gone? || Reachable(fs, (parts, context))
    ensures
      var r := Load(fs, s, parts, depth, context);
      if r.outcome.Missing? then ReadFile(fs, parts).Gone? && r.scan.swallowed == s.swallowed else Whole(s, r)
    decreases MAX_LOADS + 1 - s.loads, 0, 0
  {
    LoadCases(fs, s, parts, depth, context);
    hide ReadFile, Load, Visit, AllSound, DocumentRefs, Reachable, NothingMissing;
    if Opens(fs, s, parts, depth, context) {
      ReachedIsSound(fs, (parts, context));
      VisitedIsWhole(fs, s, parts, depth, context);
    }
  }

  lemma VisitedIsWhole(fs: Fs, s: Scan, parts: Path, depth: nat, context: Context)
    requires s.loads <= MAX_LOADS && NothingMissing(fs) && Opens(fs, s, parts, depth, context) && parts != []
    requires AllSound(fs, DocumentRefs(ReadFile(fs, parts).file.content, parts, context))
    ensures Whole(s, Visited(fs, s, parts, depth, context))
    decreases MAX_LOADS + 1 - s.loads, 0, 0, 0
  {
    hide NothingMissing, AllSound, Visit, ReadFile;
    var file := ReadFile(fs, parts).file;
    if !file.content.Empty? {
      VisitIsWhole(fs, Opened(s, parts, file, context), file.content.root, parts, depth, 1, context);
    }
  }

  lemma {:induction false} LoadAllIsWhole(fs: Fs, s: Scan, files: seq<Path>, depth: nat, context: Context)
    requires s.loads <= MAX_LOADS && NothingMissing(fs)
    requires forall f | f in files :: !ReadFile(fs, f).Gone? && Reachable(fs, (f, context))
    ensures Whole(s, LoadAll(fs, s, files, depth, context))
    decreases MAX_LOADS + 1 - s.loads, 0, 1 + |files|
  {
    hide NothingMissing, Load, ReadFile, Reachable;
    if files != [] {
      LoadIsWhole(fs, s, files[0], depth, context);
      assert !ReadFile(fs, files[0]).Gone?;
      var first := Load(fs, s, files[0], depth, context);
      if first.outcome.Ok? {
        LoadAllIsWhole(fs, first.scan, files[1..], depth, context);
      }
    }
  }

  lemma {:induction false} SecretsAreWhole(fs: Fs, s: Scan, parent: Path, index: nat, context: Context)
    requires s.loads <= MAX_LOADS && index <= |parent| && NothingMissing(fs) && Sound(fs, SecretRef(parent, context))
    ensures Whole(s, SecretCandidates(fs, s, parent, index, context))
    decreases MAX_LOADS + 1 - s.loads, 0, 1 + index
  {
    CandidateIsReached(fs, parent, index, context);
    hide NothingMissing, Load, ReadFile, Reachable, Sound;
    var q := parent[..index] + ["secrets.yaml"];
    var named := s.(secrets := s.secrets + {q});
    LoadIsWhole(fs, named, q, 0, context);
    var first := Load(fs, named, q, 0, context);
    if !first.outcome.Denied? && index > 0 {
      SecretsAreWhole(fs, first.scan, parent, index - 1, context);
    }
  }

  lemma CandidateIsReached(fs: Fs, parent: Path, index: nat, context: Context)
    requires index <= |parent| && Sound(fs, SecretRef(parent, context))
    ensures
      var q := parent[..index] + ["secrets.yaml"];
      ReadFile(fs, q).Gone? || Reachable(fs, (q, context))
  {
    hide ReadFile, Reachable;
    var q := parent[..index] + ["secrets.yaml"];
    assert !ReadFile(fs, q).Gone? ==> Targets(fs, SecretRef(parent, context), (q, context));
  }

  lemma DirectoryIsWhole(fs: Fs, s: Scan, parts: Path, depth: nat, context: Context)
    requires s.loads <= MAX_LOADS && NothingMissing(fs) && Sound(fs, DirRef(parts, context))
    ensures Whole(s, IncludeDirectory(fs, s, parts, depth, context))
    decreases MAX_LOADS + 1 - s.loads, 1, 0
  {
    assert !OpenDirectory(fs, parts).Gone?;
    hide NothingMissing, LoadAll, ReadFile, OpenDirectory, WalkDirectory, Under, Listed, ScopeOf, Sound, Reachable;
    if OpenDirectory(fs, parts).Found? {
      var dir := OpenDirectory(fs, parts).file;
      var start := Walk(s.directoriesSeen, s.entries, {}, []);
      var walk := WalkDirectory(dir, parts, [], start);
      if walk.Some? {
        NothingListed(s.directoriesSeen, s.entries, parts);
        WalkDirectoryListed(dir, parts, [], start);
        WalkIsScope(fs, parts, start);
        FilesArePresent(fs, parts, walk.value, Scope(dir.info, walk.value.inventory), context);
        var scoped := s.(directoriesSeen := walk.value.directories, entries := walk.value.entries,
                         directories := s.directories[parts := Scope(dir.info, walk.value.inventory)]);
        LoadAllIsWhole(fs, scoped, walk.value.files, depth, context);
      }
    }
  }

  lemma FilesArePresent(fs: Fs, d: Path, w: Walk, scope: Scope, context: Context)
    requires Listed(w, d) && ScopeOf(fs, d, scope) && scope.inventory == w.inventory && Sound(fs, DirRef(d, context))
    ensures forall f | f in w.files :: !ReadFile(fs, f).Gone? && Reachable(fs, (f, context))
  {
    hide ReadFile, OpenDirectory, Under, Reachable;
    forall p | p in w.files ensures !ReadFile(fs, p).Gone? && Reachable(fs, (p, context)) {
      var f :| f in w.inventory && p == d + f;
      assert p[|d|..] == f;
      assert Targets(fs, DirRef(d, context), (p, context));
    }
  }

  lemma {:induction false} VisitIsWhole(fs: Fs, s: Scan, n: Node, current: Path, depth: nat, nodeDepth: nat, context: Context)
    requires s.loads <= MAX_LOADS && current != [] && NothingMissing(fs) && AllSound(fs, Refs(n, current, context))
    ensures Whole(s, Visit(fs, s, n, current, depth, nodeDepth, context))
    decreases MAX_LOADS + 1 - s.loads, 2 + Size(n), 1
  {
    hide NothingMissing, AllSound, VisitTag, VisitItems, VisitPairs, TagRefs, ItemRefs, PairRefs;
    if !(nodeDepth > MAX_NODE_DEPTH || s.nodes + 1 > MAX_NODES || n.tag.Unrecognized?) {
      var counted := s.(nodes := s.nodes + 1);
      if !n.tag.Yaml? {
        VisitTagIsWhole(fs, counted, n, current, depth, context);
      } else {
        match n
        case Scalar(_, _) =>
        case Sequence(_, items) => ItemsAreWhole(fs, counted, items, current, depth, nodeDepth, context);
        case Mapping(_, pairs) => PairsAreWhole(fs, counted, pairs, {}, current, depth, nodeDepth, context);
      }
    }
  }

  lemma VisitTagIsWhole(fs: Fs, s: Scan, n: Node, current: Path, depth: nat, context: Context)
    requires s.loads <= MAX_LOADS && current != [] && NothingMissing(fs) && AllSound(fs, TagRefs(n, current, context))
    requires !n.tag.Unrecognized? && !n.tag.Yaml?
    ensures Whole(s, VisitTag(fs, s, n, current, depth, context))
    decreases MAX_LOADS + 1 - s.loads, 2 + Size(n), 0
  {
    hide NothingMissing, Load, IncludeDirectory, SecretCandidates, Parts, GoodOperand, ReadFile, OpenDirectory, Sound;
    if n.Scalar? && n.tag.Secret? {
      if GoodOperand(n.value) {
        assert Sound(fs, SecretRef(current[..|current| - 1], context));
        SecretsAreWhole(fs, s, current[..|current| - 1], |current| - 1, context);
      }
    } else if n.Scalar? && !n.tag.EnvVar? && !n.tag.Input? && GoodOperand(n.value) && Parts(n.value).Some? && s.includes + 1 <= MAX_INCLUDES {
      var target := current[..|current| - 1] + Parts(n.value).value;
      if n.tag.Include? {
        assert Sound(fs, FileRef(target, context));
        IncludedIsWhole(fs, s.(includes := s.includes + 1), target, depth + 1, context);
      } else {
        assert Sound(fs, DirRef(target, context));
        DirectoryIsWhole(fs, s.(includes := s.includes + 1), target, depth + 1, context);
      }
    }
  }

  lemma IncludedIsWhole(fs: Fs, s: Scan, target: Path, depth: nat, context: Context)
    requires s.loads <= MAX_LOADS && NothingMissing(fs) && Sound(fs, FileRef(target, context))
    ensures Whole(s, Load(fs, s, target, depth, context))
    decreases MAX_LOADS + 1 - s.loads, 1, 0
  {
    assert !ReadFile(fs, target).Gone? && Targets(fs, FileRef(target, context), (target, context));
    hide NothingMissing, Load, ReadFile, Reachable;
    LoadIsWhole(fs, s, target, depth, context);
  }

  lemma {:induction false} ItemsAreWhole(fs: Fs, s: Scan, items: seq<Node>, current: Path, depth: nat, nodeDepth: nat, context: Context)
    requires s.loads <= MAX_LOADS && current != [] && NothingMissing(fs) && AllSound(fs, ItemRefs(items, current, context))
    ensures Whole(s, VisitItems(fs, s, items, current, depth, nodeDepth, context))
    decreases MAX_LOADS + 1 - s.loads, 2 + SizeAll(items), 2
  {
    hide NothingMissing, Visit, Refs, Sound;
    if items != [] {
      VisitIsWhole(fs, s, items[0], current, depth, nodeDepth + 1, context);
      var first := Visit(fs, s, items[0], current, depth, nodeDepth + 1, context);
      if first.outcome.Ok? {
        ItemsAreWhole(fs, first.scan, items[1..], current, depth, nodeDepth, context);
      }
    }
  }

  lemma {:induction false} PairsAreWhole(fs: Fs, s: Scan, pairs: seq<Pair>, keys: set<(Tag, string)>, current: Path, depth: nat,
                                         nodeDepth: nat, context: Context)
    requires s.loads <= MAX_LOADS && current != [] && NothingMissing(fs) && AllSound(fs, PairRefs(pairs, current, context))
    ensures Whole(s, VisitPairs(fs, s, pairs, keys, current, depth, nodeDepth, context))
    decreases MAX_LOADS + 1 - s.loads, 2 + SizePairs(pairs), 2
  {
    hide NothingMissing, Visit, Refs, Sound, ChildContext;
    if pairs != [] {
      var key, value := pairs[0].key, pairs[0].value;
      assert SizePairs(pairs) == SizePair(pairs[0]) + SizePairs(pairs[1..]) && SizePair(pairs[0]) == 1 + Size(key) + Size(value);
      assert forall ref :: ref in OnePairRefs(pairs[0], current, context) ==> Sound(fs, ref);
      VisitIsWhole(fs, s, key, current, depth, nodeDepth + 1, context);
      var first := Visit(fs, s, key, current, depth, nodeDepth + 1, context);
      if first.outcome.Ok? {
        VisitIsWhole(fs, first.scan, value, current, depth, nodeDepth + 1, ChildContext(key, context));
        var second := Visit(fs, first.scan, value, current, depth, nodeDepth + 1, ChildContext(key, context));
        if second.outcome.Ok? {
          var seen := if key.Scalar? then keys + {(key.tag, key.value)} else keys;
          PairsAreWhole(fs, second.scan, pairs[1..], seen, current, depth, nodeDepth, context);
        }
      }
    }
  }

  /** A settled reference of a scan that ignored nothing is present. */
  lemma SettledIsPresent(fs: Fs, s: Scan, ref: Ref)
    requires Closed(fs, s) && Settled(fs, s, ref) && s.swallowed == {}
    ensures Present(fs, ref)
  {
    hide ReadFile, OpenDirectory, Under, AllSettled, DefinesGrants;
    if ref.FileRef? {
      assert DoneWell(fs, s, ref.path, ref.context) && SourceOf(fs, ref.path, s.sources[ref.path]);
    } else if ref.DirRef? {
      assert ScopeOf(fs, ref.path, s.directories[ref.path]);
      forall f | Under(OpenDirectory(fs, ref.path).file, f) ensures !ReadFile(fs, ref.path + f).Gone? {
        assert f in s.directories[ref.path].inventory;
        var q := ref.path + f;
        assert DoneWell(fs, s, q, ref.context) && SourceOf(fs, q, s.sources[q]);
      }
    }
  }

  lemma DoneIsPresent(fs: Fs, s: Scan, from: (Path, Context), ref: Ref)
    requires Closed(fs, s) && s.swallowed == {} && from in s.done && from.0 != [] && ReadFile(fs, from.0).Found?
    requires ref in DocumentRefs(ReadFile(fs, from.0).file.content, from.0, from.1)
    ensures Present(fs, ref)
  {
    hide ReadFile, Settled, ScopeOf, Present, DefinesGrants, DocumentRefs;
    assert DoneWell(fs, s, from.0, from.1) && SourceOf(fs, from.0, s.sources[from.0]);
    assert Settled(fs, s, ref);
    SettledIsPresent(fs, s, ref);
  }

  /** A complete scan ignored no missing include if and only if every include that is reached names something that exists. */
  lemma NothingIsSwallowed(fs: Fs)
    requires Scanned(fs).outcome.Ok?
    ensures Scanned(fs).scan.swallowed == {} <==> NothingMissing(fs)
  {
    hide Load, ReadFile, Present, DocumentRefs, Closed, Loads;
    var s := Scanned(fs).scan;
    if NothingMissing(fs) {
      RootIsReachable(fs);
      LoadIsWhole(fs, NewScan, Root, 0, []);
    }
    if s.swallowed == {} {
      ScanIsClosed(fs);
      forall from: (Path, Context), ref |
        Reachable(fs, from) && from.0 != [] && ReadFile(fs, from.0).Found? &&
        ref in DocumentRefs(ReadFile(fs, from.0).file.content, from.0, from.1)
        ensures Present(fs, ref)
      {
        var chain :| Chain(fs, chain) && chain[|chain| - 1] == from;
        ChainIsDone(fs, s, chain, |chain| - 1);
        DoneIsPresent(fs, s, from, ref);
      }
    }
  }
}
