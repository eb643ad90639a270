/**
 What a complete scan has recorded is exactly what the configuration reaches.
 */
module ScanReach {
  import opened Models
  import opened SourceGraph
  import opened ScanSafety
  import opened ScanTheorems
  import opened ScanComplete

  /** A file that is reached refers to this. */
  ghost predicate Referred(fs: Fs, ref: Ref) {
    exists from: (Path, Context) :: Reachable(fs, from) && RefersTo(fs, from, ref)
  }

  ghost predicate AllReferred(fs: Fs, refs: set<Ref>) {
    forall ref | ref in refs :: Referred(fs, ref)
  }

  ghost predicate ReachedFile(fs: Fs, p: Path) {
    exists context :: Reachable(fs, (p, context))
  }

  ghost predicate GrantingFile(fs: Fs, p: Path) {
    exists context :: Reachable(fs, (p, context)) && DefinesGrants(context)
  }

  ghost predicate ReachedDirectory(fs: Fs, d: Path) {
    exists context :: Referred(fs, DirRef(d, context))
  }

  /** A place where a secret that is referred to is looked for. */
  ghost predicate SecretsPlace(fs: Fs, q: Path) {
    exists parent, context, i :: IsPlace(fs, q, parent, context, i)
  }

  ghost predicate IsPlace(fs: Fs, q: Path, parent: Path, context: Context, i: nat) {
    Referred(fs, SecretRef(parent, context)) && i <= |parent| && q == parent[..i] + ["secrets.yaml"]
  }

  /** Nothing is on record but what is reached. */
  ghost predicate Traced(fs: Fs, s: Scan) {
    && (forall p | p in s.sources :: ReachedFile(fs, p))
    && (forall p | p in s.grants :: GrantingFile(fs, p))
    && (forall d | d in s.directories :: ReachedDirectory(fs, d))
    && (forall q | q in s.secrets :: SecretsPlace(fs, q))
  }

  ghost predicate StaysTraced(fs: Fs, r: Progress) {
    !r.outcome.Denied? ==> Traced(fs, r.scan)
  }

  lemma SameTraced(fs: Fs, s: Scan, t: Scan)
    requires Traced(fs, s) && t.sources == s.sources && t.grants == s.grants && t.directories == s.directories && t.secrets == s.secrets
    ensures Traced(fs, t)
  {
    hide ReachedFile, GrantingFile, ReachedDirectory, SecretsPlace;
  }

  lemma TargetIsReached(fs: Fs, ref: Ref, target: (Path, Context))
    requires Referred(fs, ref) && Targets(fs, ref, target)
    ensures Reachable(fs, target)
  {
    hide ReadFile, Targets, Reachable, DocumentRefs;
    var from: (Path, Context) :| Reachable(fs, from) && RefersTo(fs, from, ref);
    assert Loads(fs, from, target);
    NextIsReachable(fs, from, target);
  }

  lemma OpenedIsTraced(fs: Fs, s: Scan, p: Path, file: Fs, context: Context)
    requires Traced(fs, s) && Reachable(fs, (p, context)) && file.File?
    ensures Traced(fs, Opened(s, p, file, context))
  {
    hide Reachable, ReachedDirectory, SecretsPlace, DefinesGrants;
    assert ReachedFile(fs, p) && (DefinesGrants(context) ==> GrantingFile(fs, p));
    hide ReachedFile, GrantingFile;
  }

  lemma {:induction false} LoadTraced(fs: Fs, s: Scan, p: Path, depth: nat, context: Context)
    requires s.loads <= MAX_LOADS && Traced(fs, s) && (ReadFile(fs, p).Found? ==> Reachable(fs, (p, context)))
    ensures StaysTraced(fs, Load(fs, s, p, depth, context))
    decreases MAX_LOADS + 1 - s.loads, 0, 0
  {
    hide ReadFile, Load, Visited, Traced, Reachable, Opened, Acceptable, Parsable;
    LoadCases(fs, s, p, depth, context);
    if Opens(fs, s, p, depth, context) {
      var inner := Visited(fs, s, p, depth, context);
      OpenedIsTraced(fs, s, p, ReadFile(fs, p).file, context);
      VisitedTraced(fs, s, p, depth, context);
      if !inner.outcome.Denied? {
        SameTraced(fs, inner.scan, Load(fs, s, p, depth, context).scan);
      }
    } else {
      SameTraced(fs, s, s.(loads := s.loads + 1));
    }
  }

  lemma VisitedTraced(fs: Fs, s: Scan, p: Path, depth: nat, context: Context)
    requires s.loads <= MAX_LOADS && Opens(fs, s, p, depth, context) && p != [] && Reachable(fs, (p, context))
    requires Traced(fs, Opened(s, p, ReadFile(fs, p).file, context))
    ensures StaysTraced(fs, Visited(fs, s, p, depth, context))
    decreases MAX_LOADS + 1 - s.loads, 0, 0, 0
  {
    hide Traced, Visit, ReadFile, Reachable, Acceptable, AllReferred;
    var file := ReadFile(fs, p).file;
    if !file.content.Empty? {
      RefsAreReferred(fs, (p, context));
      VisitTraced(fs, Opened(s, p, file, context), file.content.root, p, depth, 1, context);
    }
  }

  lemma RefsAreReferred(fs: Fs, from: (Path, Context))
    requires Reachable(fs, from) && from.0 != [] && ReadFile(fs, from.0).Found?
    ensures AllReferred(fs, DocumentRefs(ReadFile(fs, from.0).file.content, from.0, from.1))
  {
    hide ReadFile, Reachable, DocumentRefs;
    forall ref | ref in DocumentRefs(ReadFile(fs, from.0).file.content, from.0, from.1) ensures Referred(fs, ref) {
      assert RefersTo(fs, from, ref);
    }
  }

  lemma {:induction false} LoadAllTraced(fs: Fs, s: Scan, files: seq<Path>, depth: nat, context: Context)
    requires s.loads <= MAX_LOADS && Traced(fs, s) && forall f | f in files :: Reachable(fs, (f, context))
    ensures StaysTraced(fs, LoadAll(fs, s, files, depth, context))
    decreases MAX_LOADS + 1 - s.loads, 0, 1 + |files|
  {
    hide Traced, Load, ReadFile, Reachable;
    if files != [] {
      LoadTraced(fs, s, files[0], depth, context);
      var first := Load(fs, s, files[0], depth, context);
      if first.outcome.Ok? {
        LoadAllTraced(fs, first.scan, files[1..], depth, context);
      }
    }
  }

  lemma NamedIsTraced(fs: Fs, s: Scan, parent: Path, index: nat, context: Context)
    requires Traced(fs, s) && index <= |parent| && Referred(fs, SecretRef(parent, context))
    ensures Traced(fs, s.(secrets := s.secrets + {parent[..index] + ["secrets.yaml"]}))
  {
    hide Referred, ReachedFile, GrantingFile, ReachedDirectory;
    var q := parent[..index] + ["secrets.yaml"];
    assert IsPlace(fs, q, parent, context, index);
    assert SecretsPlace(fs, q);
    hide SecretsPlace;
  }

  lemma PlaceIsReached(fs: Fs, parent: Path, index: nat, context: Context)
    requires index <= |parent| && Referred(fs, SecretRef(parent, context))
    ensures ReadFile(fs, parent[..index] + ["secrets.yaml"]).Found? ==> Reachable(fs, (parent[..index] + ["secrets.yaml"], context))
  {
    hide ReadFile, Reachable, Referred;
    var q := parent[..index] + ["secrets.yaml"];
    if ReadFile(fs, q).Found? {
      assert Targets(fs, SecretRef(parent, context), (q, context));
      TargetIsReached(fs, SecretRef(parent, context), (q, context));
    }
  }

  lemma {:induction false} SecretsTraced(fs: Fs, s: Scan, parent: Path, index: nat, context: Context)
    requires s.loads <= MAX_LOADS && index <= |parent| && Traced(fs, s) && Referred(fs, SecretRef(parent, context))
    ensures StaysTraced(fs, SecretCandidates(fs, s, parent, index, context))
    decreases MAX_LOADS + 1 - s.loads, 0, 1 + index
  {
    hide Traced, Load, ReadFile, Reachable, Referred;
    var q := parent[..index] + ["secrets.yaml"];
    var named := s.(secrets := s.secrets + {q});
    NamedIsTraced(fs, s, parent, index, context);
    PlaceIsReached(fs, parent, index, context);
    LoadTraced(fs, named, q, 0, context);
    var first := Load(fs, named, q, 0, context);
    var later := if first.outcome.Missing? && !ReadFile(fs, q).Gone? then first.scan.(swallowed := first.scan.swallowed + {q}) else first.scan;
    if !first.outcome.Denied? {
      SameTraced(fs, first.scan, later);
      if index > 0 {
        SecretsTraced(fs, later, parent, index - 1, context);
      }
    }
  }

  lemma ScopedIsTraced(fs: Fs, s: Scan, d: Path, scope: Scope, w: Walk, context: Context)
    requires Traced(fs, s) && Referred(fs, DirRef(d, context))
    ensures Traced(fs, Scoped(s, d, scope, w))
  {
    hide Referred, ReachedFile, GrantingFile, SecretsPlace;
    assert ReachedDirectory(fs, d);
    hide ReachedDirectory;
  }

  lemma DirectoryTraced(fs: Fs, s: Scan, d: Path, depth: nat, context: Context)
    requires s.loads <= MAX_LOADS && Traced(fs, s) && Referred(fs, DirRef(d, context))
    ensures StaysTraced(fs, IncludeDirectory(fs, s, d, depth, context))
    decreases MAX_LOADS + 1 - s.loads, 1, 0
  {
    hide Traced, LoadAll, OpenDirectory, WalkDirectory, Listed, ReadFile, ScopeOf, Referred, Reachable;
    if OpenDirectory(fs, d).Found? {
      var dir, start := OpenDirectory(fs, d).file, Walk(s.directoriesSeen, s.entries, {}, []);
      var walk := WalkDirectory(dir, d, [], start);
      if walk.Some? {
        var scope := Scope(dir.info, walk.value.inventory);
        NothingListed(s.directoriesSeen, s.entries, d);
        WalkDirectoryListed(dir, d, [], start);
        WalkIsScope(fs, d, start);
        FilesAreReached(fs, d, walk.value, scope, context);
        ScopedIsTraced(fs, s, d, scope, walk.value, context);
        LoadAllTraced(fs, Scoped(s, d, scope, walk.value), walk.value.files, depth, context);
      }
    }
  }

  lemma FilesAreReached(fs: Fs, d: Path, w: Walk, scope: Scope, context: Context)
    requires Listed(w, d) && ScopeOf(fs, d, scope) && scope.inventory == w.inventory && Referred(fs, DirRef(d, context))
    ensures forall f | f in w.files :: Reachable(fs, (f, context))
  {
    hide ReadFile, OpenDirectory, Under, Reachable, Referred, PlainDirectory;
    forall p | p in w.files ensures Reachable(fs, (p, context)) {
      var f :| f in w.inventory && p == d + f;
      assert p[|d|..] == f;
      assert Targets(fs, DirRef(d, context), (p, context));
      TargetIsReached(fs, DirRef(d, context), (p, context));
    }
  }

  lemma {:induction false} VisitTraced(fs: Fs, s: Scan, n: Node, current: Path, depth: nat, nodeDepth: nat, context: Context)
    requires s.loads <= MAX_LOADS && current != [] && Traced(fs, s) && AllReferred(fs, Refs(n, current, context))
    ensures StaysTraced(fs, Visit(fs, s, n, current, depth, nodeDepth, context))
    decreases MAX_LOADS + 1 - s.loads, 2 + Size(n), 1
  {
    hide Traced, AllReferred, VisitTag, VisitItems, VisitPairs, TagRefs, ItemRefs, PairRefs;
    if !(nodeDepth > MAX_NODE_DEPTH || s.nodes + 1 > MAX_NODES || n.tag.Unrecognized?) {
      var counted := s.(nodes := s.nodes + 1);
      SameTraced(fs, s, counted);
      if !n.tag.Yaml? {
        VisitTagTraced(fs, counted, n, current, depth, context);
      } else {
        match n
        case Scalar(_, _) =>
        case Sequence(_, items) => VisitItemsTraced(fs, counted, items, current, depth, nodeDepth, context);
        case Mapping(_, pairs) => VisitPairsTraced(fs, counted, pairs, {}, current, depth, nodeDepth, context);
      }
    }
  }

  lemma {:induction false} VisitTagTraced(fs: Fs, s: Scan, n: Node, current: Path, depth: nat, context: Context)
    requires s.loads <= MAX_LOADS && current != [] && Traced(fs, s) && AllReferred(fs, TagRefs(n, current, context))
    requires !n.tag.Yaml? && !n.tag.Unrecognized?
    ensures StaysTraced(fs, VisitTag(fs, s, n, current, depth, context))
    decreases MAX_LOADS + 1 - s.loads, 2 + Size(n), 0
  {
    hide Traced, Load, IncludeDirectory, SecretCandidates, Parts, GoodOperand, ReadFile, OpenDirectory, Referred, Reachable;
    if n.Scalar? && !n.tag.EnvVar? && !n.tag.Input? {
      var here := current[..|current| - 1];
      if n.tag.Secret? {
        assert Referred(fs, SecretRef(here, context));
        SecretsTraced(fs, s, here, |here|, context);
      } else if Parts(n.value).Some? {
        var target, counted := here + Parts(n.value).value, s.(includes := s.includes + 1);
        SameTraced(fs, s, counted);
        if n.tag.Include? {
          assert Referred(fs, FileRef(target, context));
          TargetIsReached(fs, FileRef(target, context), (target, context));
          IncludedTraced(fs, counted, target, depth, context);
        } else {
          assert Referred(fs, DirRef(target, context));
          DirectoryTraced(fs, counted, target, depth + 1, context);
        }
      }
    }
  }

  lemma IncludedTraced(fs: Fs, s: Scan, q: Path, depth: nat, context: Context)
    requires s.loads <= MAX_LOADS && Traced(fs, s) && Reachable(fs, (q, context))
    ensures StaysTraced(fs, Load(fs, s, q, depth + 1, context))
    decreases MAX_LOADS + 1 - s.loads, 1, 0
  {
    hide Traced, Load, ReadFile, Reachable;
    LoadTraced(fs, s, q, depth + 1, context);
  }

  lemma BothReferred(fs: Fs, a: set<Ref>, b: set<Ref>)
    requires AllReferred(fs, a + b)
    ensures AllReferred(fs, a) && AllReferred(fs, b)
  {
    hide Referred;
    assert forall ref :: ref in a || ref in b ==> ref in a + b;
  }

  lemma {:induction false} VisitItemsTraced(fs: Fs, s: Scan, items: seq<Node>, current: Path, depth: nat, nodeDepth: nat, context: Context)
    requires s.loads <= MAX_LOADS && current != [] && Traced(fs, s) && AllReferred(fs, ItemRefs(items, current, context))
    ensures StaysTraced(fs, VisitItems(fs, s, items, current, depth, nodeDepth, context))
    decreases MAX_LOADS + 1 - s.loads, 2 + SizeAll(items), 2
  {
    hide Traced, Visit, Refs, AllReferred;
    if items != [] {
      BothReferred(fs, Refs(items[0], current, context), ItemRefs(items[1..], current, context));
      VisitTraced(fs, s, items[0], current, depth, nodeDepth + 1, context);
      var first := Visit(fs, s, items[0], current, depth, nodeDepth + 1, context);
      if first.outcome.Ok? {
        VisitItemsTraced(fs, first.scan, items[1..], current, depth, nodeDepth, context);
      }
    }
  }

  lemma {:induction false} VisitPairsTraced(fs: Fs, s: Scan, pairs: seq<Pair>, keys: set<(Tag, string)>, current: Path, depth: nat,
                                            nodeDepth: nat, context: Context)
    requires s.loads <= MAX_LOADS && current != [] && Traced(fs, s) && AllReferred(fs, PairRefs(pairs, current, context))
    ensures StaysTraced(fs, VisitPairs(fs, s, pairs, keys, current, depth, nodeDepth, context))
    decreases MAX_LOADS + 1 - s.loads, 2 + SizePairs(pairs), 2
  {
    hide Traced, Visit, Refs, AllReferred, ChildContext;
    if pairs != [] {
      var key, value := pairs[0].key, pairs[0].value;
      var child := ChildContext(key, context);
      assert SizePairs(pairs) == SizePair(pairs[0]) + SizePairs(pairs[1..]) && SizePair(pairs[0]) == 1 + Size(key) + Size(value);
      BothReferred(fs, OnePairRefs(pairs[0], current, context), PairRefs(pairs[1..], current, context));
      BothReferred(fs, Refs(key, current, context), Refs(value, current, child));
      VisitTraced(fs, s, key, current, depth, nodeDepth + 1, context);
      var first := Visit(fs, s, key, current, depth, nodeDepth + 1, context);
      if first.outcome.Ok? {
        VisitTraced(fs, first.scan, value, current, depth, nodeDepth + 1, child);
        var second := Visit(fs, first.scan, value, current, depth, nodeDepth + 1, child);
        if second.outcome.Ok? {
          var seen := if key.Scalar? then keys + {(key.tag, key.value)} else keys;
          VisitPairsTraced(fs, second.scan, pairs[1..], seen, current, depth, nodeDepth, context);
        }
      }
    }
  }

  // ----- The record

  lemma DoneIsRecorded(fs: Fs, s: Scan, from: (Path, Context))
    requires Closed(fs, s) && s.swallowed == {} && (Root, []) in s.done && Reachable(fs, from)
    ensures from.0 in s.sources && (DefinesGrants(from.1) ==> from.0 in s.grants)
    ensures forall ref | RefersTo(fs, from, ref) :: Settled(fs, s, ref)
  {
    var chain :| Chain(fs, chain) && chain[|chain| - 1] == from;
    hide ReadFile, Chain, DefinesGrants, DocumentRefs, Settled, ScopeOf;
    ChainIsDone(fs, s, chain, |chain| - 1);
    assert DoneWell(fs, s, from.0, from.1) && SourceOf(fs, from.0, s.sources[from.0]);
  }

  /**
   A complete scan that ignored nothing has on record exactly the files that are reached, as grant sources exactly those
   that are reached in a context that defines grants, exactly the included directories, and exactly the places where
   a secret is looked for.
   */
  lemma RecordExactly(fs: Fs)
    requires Scanned(fs).outcome.Ok? && Scanned(fs).scan.swallowed == {}
    ensures
      var g := GraphOf(Scanned(fs).scan);
      && (forall p :: p in g.sources <==> ReachedFile(fs, p))
      && (forall p :: p in g.grants <==> GrantingFile(fs, p))
      && (forall d :: d in g.directories <==> ReachedDirectory(fs, d))
      && (forall q :: q in g.secrets <==> SecretsPlace(fs, q))
  {
    hide Load, ReadFile, Closed, Reachable, DefinesGrants, RefersTo;
    var s := Scanned(fs).scan;
    ScanIsClosed(fs);
    RootIsReachable(fs);
    LoadTraced(fs, NewScan, Root, 0, []);
    forall p | ReachedFile(fs, p) ensures p in s.sources && (GrantingFile(fs, p) ==> p in s.grants) {
      ReachedIsRecorded(fs, s, p);
    }
    forall p | GrantingFile(fs, p) ensures p in s.grants {
      assert ReachedFile(fs, p);
    }
    forall d | ReachedDirectory(fs, d) ensures d in s.directories {
      var context :| Referred(fs, DirRef(d, context));
      ReferredIsSettled(fs, s, DirRef(d, context));
    }
    forall q | SecretsPlace(fs, q) ensures q in s.secrets {
      var parent, context, i :| IsPlace(fs, q, parent, context, i);
      ReferredIsSettled(fs, s, SecretRef(parent, context));
      assert SecretSettled(fs, s, parent[..i] + ["secrets.yaml"], context);
    }
  }

  lemma ReachedIsRecorded(fs: Fs, s: Scan, p: Path)
    requires Closed(fs, s) && s.swallowed == {} && (Root, []) in s.done && ReachedFile(fs, p)
    ensures p in s.sources && (GrantingFile(fs, p) ==> p in s.grants)
  {
    hide Closed, Reachable, DefinesGrants, RefersTo;
    var context :| Reachable(fs, (p, context));
    DoneIsRecorded(fs, s, (p, context));
    if GrantingFile(fs, p) {
      var granting :| Reachable(fs, (p, granting)) && DefinesGrants(granting);
      DoneIsRecorded(fs, s, (p, granting));
    }
  }

  lemma ReferredIsSettled(fs: Fs, s: Scan, ref: Ref)
    requires Closed(fs, s) && s.swallowed == {} && (Root, []) in s.done && Referred(fs, ref)
    ensures Settled(fs, s, ref)
  {
    hide Closed, Reachable, DefinesGrants, RefersTo, Settled;
    var from: (Path, Context) :| Reachable(fs, from) && RefersTo(fs, from, ref);
    DoneIsRecorded(fs, s, from);
  }
}
