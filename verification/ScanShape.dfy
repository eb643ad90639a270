/**
 Why no circle and no deep nesting passes the scan: how far the references of a file go, and which configurations
 are scanned completely, in both directions.
 */
module ScanShape {
  import opened Models
  import opened SourceGraph
  import opened ScanSafety
  import opened ScanTheorems
  import opened ScanComplete

  /**
   The references of a file end after so many loads, and its includes after so many levels, which start over at a
   secrets file.
   */
  ghost predicate Ends(fs: Fs, p: Path, levels: nat, loads: nat)
    decreases loads, 2
  {
    ReadFile(fs, p).Found? ==> forall context :: AllEnd(fs, DocumentRefs(ReadFile(fs, p).file.content, p, context), levels, loads)
  }

  ghost predicate AllEnd(fs: Fs, refs: set<Ref>, levels: nat, loads: nat)
    decreases loads, 1
  {
    forall ref | ref in refs :: RefEnds(fs, ref, levels, loads)
  }

  ghost predicate RefEnds(fs: Fs, ref: Ref, levels: nat, loads: nat)
    decreases loads, 0
  {
    match ref
    case FileRef(q, _) => levels > 0 && loads > 0 && Ends(fs, q, levels - 1, loads - 1)
    case DirRef(d, _) =>
      OpenDirectory(fs, d).Found? ==>
        forall f | Under(OpenDirectory(fs, d).file, f) :: levels > 0 && loads > 0 && Ends(fs, d + f, levels - 1, loads - 1)
    case SecretRef(parent, _) =>
      forall i | 0 <= i <= |parent| && !ReadFile(fs, parent[..i] + ["secrets.yaml"]).Gone? ::
        loads > 0 && Ends(fs, parent[..i] + ["secrets.yaml"], MAX_DEPTH, loads - 1)
  }

  lemma {:induction false} EndsSooner(fs: Fs, p: Path, levels: nat, loads: nat, more: nat, longer: nat)
    requires Ends(fs, p, levels, loads) && levels <= more && loads <= longer
    ensures Ends(fs, p, more, longer)
    decreases loads, 2
  {
    hide ReadFile, DocumentRefs, AllEnd;
    if ReadFile(fs, p).Found? {
      forall context ensures AllEnd(fs, DocumentRefs(ReadFile(fs, p).file.content, p, context), more, longer) {
        AllEndSooner(fs, DocumentRefs(ReadFile(fs, p).file.content, p, context), levels, loads, more, longer);
      }
    }
  }

  lemma {:induction false} AllEndSooner(fs: Fs, refs: set<Ref>, levels: nat, loads: nat, more: nat, longer: nat)
    requires AllEnd(fs, refs, levels, loads) && levels <= more && loads <= longer
    ensures AllEnd(fs, refs, more, longer)
    decreases loads, 1
  {
    hide RefEnds;
    forall ref | ref in refs ensures RefEnds(fs, ref, more, longer) {
      RefEndsSooner(fs, ref, levels, loads, more, longer);
    }
  }

  lemma {:induction false} RefEndsSooner(fs: Fs, ref: Ref, levels: nat, loads: nat, more: nat, longer: nat)
    requires RefEnds(fs, ref, levels, loads) && levels <= more && loads <= longer
    ensures RefEnds(fs, ref, more, longer)
    decreases loads, 0
  {
    hide ReadFile, OpenDirectory, Under, Ends;
    match ref
    case FileRef(q, _) => EndsSooner(fs, q, levels - 1, loads - 1, more - 1, longer - 1);
    case DirRef(d, _) =>
      if OpenDirectory(fs, d).Found? {
        forall f | Under(OpenDirectory(fs, d).file, f) ensures more > 0 && longer > 0 && Ends(fs, d + f, more - 1, longer - 1) {
          EndsSooner(fs, d + f, levels - 1, loads - 1, more - 1, longer - 1);
        }
      }
    case SecretRef(parent, _) =>
      forall i | 0 <= i <= |parent| && !ReadFile(fs, parent[..i] + ["secrets.yaml"]).Gone?
        ensures longer > 0 && Ends(fs, parent[..i] + ["secrets.yaml"], MAX_DEPTH, longer - 1)
      {
        EndsSooner(fs, parent[..i] + ["secrets.yaml"], MAX_DEPTH, loads - 1, MAX_DEPTH, longer - 1);
      }
  }

  lemma BothEnd(fs: Fs, a: set<Ref>, b: set<Ref>, levels: nat, loads: nat)
    ensures AllEnd(fs, a + b, levels, loads) <==> AllEnd(fs, a, levels, loads) && AllEnd(fs, b, levels, loads)
  {
    hide RefEnds;
    if AllEnd(fs, a + b, levels, loads) {
      assert forall ref :: ref in a || ref in b ==> ref in a + b;
    }
  }

  // ----- The context does not matter to where references lead

  lemma {:induction false} AnyContext(fs: Fs, n: Node, current: Path, context: Context, other: Context, levels: nat, loads: nat)
    requires current != [] && AllEnd(fs, Refs(n, current, context), levels, loads)
    ensures AllEnd(fs, Refs(n, current, other), levels, loads)
    decreases Size(n), 1
  {
    if !n.tag.Yaml? {
      hide ReadFile, OpenDirectory, Under, Ends, Parts;
      forall ref | ref in TagRefs(n, current, other) ensures RefEnds(fs, ref, levels, loads) {
        assert ref.(context := context) in TagRefs(n, current, context);
      }
    } else {
      hide AllEnd, ItemRefs, PairRefs;
      match n
      case Scalar(_, _) =>
      case Sequence(_, items) => AnyContextItems(fs, items, current, context, other, levels, loads);
      case Mapping(_, pairs) => AnyContextPairs(fs, pairs, current, context, other, levels, loads);
    }
  }

  lemma {:induction false} AnyContextItems(fs: Fs, items: seq<Node>, current: Path, context: Context, other: Context, levels: nat, loads: nat)
    requires current != [] && AllEnd(fs, ItemRefs(items, current, context), levels, loads)
    ensures AllEnd(fs, ItemRefs(items, current, other), levels, loads)
    decreases SizeAll(items), 2
  {
    hide RefEnds, Refs;
    if items != [] {
      BothEnd(fs, Refs(items[0], current, context), ItemRefs(items[1..], current, context), levels, loads);
      AnyContext(fs, items[0], current, context, other, levels, loads);
      AnyContextItems(fs, items[1..], current, context, other, levels, loads);
    }
  }

  lemma {:induction false} AnyContextPairs(fs: Fs, pairs: seq<Pair>, current: Path, context: Context, other: Context, levels: nat, loads: nat)
    requires current != [] && AllEnd(fs, PairRefs(pairs, current, context), levels, loads)
    ensures AllEnd(fs, PairRefs(pairs, current, other), levels, loads)
    decreases SizePairs(pairs), 2
  {
    hide RefEnds, Refs, ChildContext;
    if pairs != [] {
      var key, value := pairs[0].key, pairs[0].value;
      assert SizePairs(pairs) == SizePair(pairs[0]) + SizePairs(pairs[1..]) && SizePair(pairs[0]) == 1 + Size(key) + Size(value);
      BothEnd(fs, OnePairRefs(pairs[0], current, context), PairRefs(pairs[1..], current, context), levels, loads);
      BothEnd(fs, Refs(key, current, context), Refs(value, current, ChildContext(key, context)), levels, loads);
      AnyContext(fs, key, current, context, other, levels, loads);
      AnyContext(fs, value, current, ChildContext(key, context), ChildContext(key, other), levels, loads);
      AnyContextPairs(fs, pairs[1..], current, context, other, levels, loads);
      BothEnd(fs, Refs(key, current, other), Refs(value, current, ChildContext(key, other)), levels, loads);
      BothEnd(fs, OnePairRefs(pairs[0], current, other), PairRefs(pairs[1..], current, other), levels, loads);
    }
  }

  lemma EndsByContext(fs: Fs, p: Path, context: Context, levels: nat, loads: nat)
    requires ReadFile(fs, p).Found? && p != [] && AllEnd(fs, DocumentRefs(ReadFile(fs, p).file.content, p, context), levels, loads)
    ensures Ends(fs, p, levels, loads)
  {
    hide ReadFile, Refs, AllEnd;
    var content := ReadFile(fs, p).file.content;
    forall other ensures AllEnd(fs, DocumentRefs(content, p, other), levels, loads) {
      if content.Document? {
        AnyContext(fs, content.root, p, context, other, levels, loads);
      }
    }
  }

  // ----- What is loaded ends

  /** A load that succeeds, and ignores nothing, has come to the end of all references below it. */
  lemma {:induction false} LoadEnds(fs: Fs, s: Scan, p: Path, depth: nat, context: Context)
    requires s.loads <= MAX_LOADS
    ensures
      var r := Load(fs, s, p, depth, context);
      r.outcome.Ok? && r.scan.swallowed == {} ==>
        depth <= MAX_DEPTH && s.loads < MAX_LOADS && Ends(fs, p, MAX_DEPTH - depth, MAX_LOADS - s.loads - 1)
    decreases MAX_LOADS + 1 - s.loads, 0, 0
  {
    hide ReadFile, Load, Visited, Ends, AllEnd, DocumentRefs, Opened, Acceptable, Parsable;
    LoadCases(fs, s, p, depth, context);
    if Opens(fs, s, p, depth, context) {
      var inner := Visited(fs, s, p, depth, context);
      if inner.outcome.Ok? && inner.scan.swallowed == {} {
        VisitedEnds(fs, s, p, depth, context);
        EndsByContext(fs, p, context, MAX_DEPTH - depth, MAX_LOADS - s.loads - 1);
      }
    }
  }

  lemma VisitedEnds(fs: Fs, s: Scan, p: Path, depth: nat, context: Context)
    requires s.loads <= MAX_LOADS && Opens(fs, s, p, depth, context) && p != []
    requires Visited(fs, s, p, depth, context).outcome.Ok? && Visited(fs, s, p, depth, context).scan.swallowed == {}
    ensures AllEnd(fs, DocumentRefs(ReadFile(fs, p).file.content, p, context), MAX_DEPTH - depth, MAX_LOADS - s.loads - 1)
    decreases MAX_LOADS + 1 - s.loads, 0, 0, 0
  {
    hide RefEnds, Visit, ReadFile, Refs, Acceptable;
    var file := ReadFile(fs, p).file;
    if !file.content.Empty? {
      VisitEnds(fs, Opened(s, p, file, context), file.content.root, p, depth, 1, context);
    }
  }

  lemma {:induction false} LoadAllEnds(fs: Fs, s: Scan, files: seq<Path>, depth: nat, context: Context)
    requires s.loads <= MAX_LOADS
    ensures
      var r := LoadAll(fs, s, files, depth, context);
      r.outcome.Ok? && r.scan.swallowed == {} ==>
        forall f | f in files :: depth <= MAX_DEPTH && s.loads < MAX_LOADS && Ends(fs, f, MAX_DEPTH - depth, MAX_LOADS - s.loads - 1)
    decreases MAX_LOADS + 1 - s.loads, 0, 1 + |files|
  {
    hide Load, Ends;
    if files != [] {
      var first := Load(fs, s, files[0], depth, context);
      LoadEnds(fs, s, files[0], depth, context);
      if first.outcome.Ok? {
        var r := LoadAll(fs, first.scan, files[1..], depth, context);
        LoadAllEnds(fs, first.scan, files[1..], depth, context);
        if r.outcome.Ok? && r.scan.swallowed == {} {
          forall f | f in files ensures Ends(fs, f, MAX_DEPTH - depth, MAX_LOADS - s.loads - 1) {
            if f in files[1..] {
              EndsSooner(fs, f, MAX_DEPTH - depth, MAX_LOADS - first.scan.loads - 1, MAX_DEPTH - depth, MAX_LOADS - s.loads - 1);
            }
          }
        }
      }
    }
  }

  /** The secrets files from this one up end. */
  ghost predicate SecretsEnd(fs: Fs, parent: Path, index: nat, loads: nat)
    requires index <= |parent|
  {
    forall i | 0 <= i <= index && !ReadFile(fs, parent[..i] + ["secrets.yaml"]).Gone? ::
      loads > 0 && Ends(fs, parent[..i] + ["secrets.yaml"], MAX_DEPTH, loads - 1)
  }

  lemma SecretsEndSooner(fs: Fs, parent: Path, index: nat, loads: nat, longer: nat)
    requires index <= |parent| && SecretsEnd(fs, parent, index, loads) && loads <= longer
    ensures SecretsEnd(fs, parent, index, longer)
  {
    hide ReadFile, Ends;
    forall i | 0 <= i <= index && !ReadFile(fs, parent[..i] + ["secrets.yaml"]).Gone?
      ensures longer > 0 && Ends(fs, parent[..i] + ["secrets.yaml"], MAX_DEPTH, longer - 1)
    {
      EndsSooner(fs, parent[..i] + ["secrets.yaml"], MAX_DEPTH, loads - 1, MAX_DEPTH, longer - 1);
    }
  }

  lemma {:induction false} SecretCandidatesEnd(fs: Fs, s: Scan, parent: Path, index: nat, context: Context)
    requires s.loads <= MAX_LOADS && index <= |parent|
    ensures
      var r := SecretCandidates(fs, s, parent, index, context);
      r.outcome.Ok? && r.scan.swallowed == {} ==> SecretsEnd(fs, parent, index, MAX_LOADS - s.loads)
    decreases MAX_LOADS + 1 - s.loads, 0, 1 + index
  {
    hide Load, ReadFile, Ends, SecretsEnd;
    var q := parent[..index] + ["secrets.yaml"];
    var named := s.(secrets := s.secrets + {q});
    var first := Load(fs, named, q, 0, context);
    LoadEnds(fs, named, q, 0, context);
    var later := if first.outcome.Missing? && !ReadFile(fs, q).Gone? then first.scan.(swallowed := first.scan.swallowed + {q}) else first.scan;
    var r := SecretCandidates(fs, s, parent, index, context);
    if r.outcome.Ok? && r.scan.swallowed == {} {
      if index > 0 {
        SecretCandidatesEnd(fs, later, parent, index - 1, context);
        SecretsEndSooner(fs, parent, index - 1, MAX_LOADS - later.loads, MAX_LOADS - s.loads);
      }
      OneSecretMore(fs, parent, index, MAX_LOADS - s.loads);
    }
  }

  lemma OneSecretMore(fs: Fs, parent: Path, index: nat, loads: nat)
    requires index <= |parent| && (index > 0 ==> SecretsEnd(fs, parent, index - 1, loads))
    requires
      var q := parent[..index] + ["secrets.yaml"];
      ReadFile(fs, q).Gone? || (loads > 0 && Ends(fs, q, MAX_DEPTH, loads - 1))
    ensures SecretsEnd(fs, parent, index, loads)
  {
    hide ReadFile, Ends;
  }

  lemma DirectoryEnds(fs: Fs, s: Scan, d: Path, depth: nat, context: Context)
    requires s.loads <= MAX_LOADS && depth <= MAX_DEPTH
    ensures
      var r := IncludeDirectory(fs, s, d, depth + 1, context);
      r.outcome.Ok? && r.scan.swallowed == {} ==> RefEnds(fs, DirRef(d, context), MAX_DEPTH - depth, MAX_LOADS - s.loads)
    decreases MAX_LOADS + 1 - s.loads, 1, 0
  {
    hide LoadAll, OpenDirectory, WalkDirectory, Listed, ReadFile, ScopeOf, Ends;
    if OpenDirectory(fs, d).Found? {
      var dir, start := OpenDirectory(fs, d).file, Walk(s.directoriesSeen, s.entries, {}, []);
      var walk := WalkDirectory(dir, d, [], start);
      if walk.Some? {
        var scope := Scope(dir.info, walk.value.inventory);
        NothingListed(s.directoriesSeen, s.entries, d);
        WalkDirectoryListed(dir, d, [], start);
        WalkIsScope(fs, d, start);
        FilesAreListed(fs, d, walk.value, scope);
        LoadAllEnds(fs, Scoped(s, d, scope, walk.value), walk.value.files, depth + 1, context);
      }
    }
  }

  lemma FilesAreListed(fs: Fs, d: Path, w: Walk, scope: Scope)
    requires Listed(w, d) && ScopeOf(fs, d, scope) && scope.inventory == w.inventory
    ensures forall f | Under(OpenDirectory(fs, d).file, f) :: d + f in w.files
  {
    hide OpenDirectory, Under;
  }

  lemma {:induction false} VisitEnds(fs: Fs, s: Scan, n: Node, current: Path, depth: nat, nodeDepth: nat, context: Context)
    requires s.loads <= MAX_LOADS && current != [] && depth <= MAX_DEPTH
    ensures
      var r := Visit(fs, s, n, current, depth, nodeDepth, context);
      r.outcome.Ok? && r.scan.swallowed == {} ==> AllEnd(fs, Refs(n, current, context), MAX_DEPTH - depth, MAX_LOADS - s.loads)
    decreases MAX_LOADS + 1 - s.loads, 2 + Size(n), 1
  {
    hide VisitTag, VisitItems, VisitPairs, TagRefs, ItemRefs, PairRefs, RefEnds;
    if !(nodeDepth > MAX_NODE_DEPTH || s.nodes + 1 > MAX_NODES || n.tag.Unrecognized?) {
      var counted := s.(nodes := s.nodes + 1);
      if !n.tag.Yaml? {
        VisitTagEnds(fs, counted, n, current, depth, context);
      } else {
        match n
        case Scalar(_, _) =>
        case Sequence(_, items) => VisitItemsEnd(fs, counted, items, current, depth, nodeDepth, context);
        case Mapping(_, pairs) => VisitPairsEnd(fs, counted, pairs, {}, current, depth, nodeDepth, context);
      }
    }
  }

  lemma {:induction false} VisitTagEnds(fs: Fs, s: Scan, n: Node, current: Path, depth: nat, context: Context)
    requires s.loads <= MAX_LOADS && current != [] && depth <= MAX_DEPTH && !n.tag.Yaml? && !n.tag.Unrecognized?
    ensures
      var r := VisitTag(fs, s, n, current, depth, context);
      r.outcome.Ok? && r.scan.swallowed == {} ==> AllEnd(fs, TagRefs(n, current, context), MAX_DEPTH - depth, MAX_LOADS - s.loads)
    decreases MAX_LOADS + 1 - s.loads, 2 + Size(n), 0
  {
    hide Load, IncludeDirectory, SecretCandidates, Parts, GoodOperand, ReadFile, OpenDirectory, Ends, Under;
    if n.Scalar? {
      var here := current[..|current| - 1];
      if n.tag.Secret? {
        SecretCandidatesEnd(fs, s, here, |here|, context);
      } else if !n.tag.EnvVar? && !n.tag.Input? && Parts(n.value).Some? {
        var target, counted := here + Parts(n.value).value, s.(includes := s.includes + 1);
        if n.tag.Include? {
          IncludedEnds(fs, counted, target, depth, context);
        } else {
          DirectoryEnds(fs, counted, target, depth, context);
        }
      }
    }
  }

  lemma IncludedEnds(fs: Fs, s: Scan, q: Path, depth: nat, context: Context)
    requires s.loads <= MAX_LOADS && depth <= MAX_DEPTH
    ensures
      var r := Load(fs, s, q, depth + 1, context);
      r.outcome.Ok? && r.scan.swallowed == {} ==> RefEnds(fs, FileRef(q, context), MAX_DEPTH - depth, MAX_LOADS - s.loads)
    decreases MAX_LOADS + 1 - s.loads, 1, 0
  {
    hide Load, Ends, ReadFile, OpenDirectory;
    LoadEnds(fs, s, q, depth + 1, context);
  }

  lemma {:induction false} VisitItemsEnd(fs: Fs, s: Scan, items: seq<Node>, current: Path, depth: nat, nodeDepth: nat, context: Context)
    requires s.loads <= MAX_LOADS && current != [] && depth <= MAX_DEPTH
    ensures
      var r := VisitItems(fs, s, items, current, depth, nodeDepth, context);
      r.outcome.Ok? && r.scan.swallowed == {} ==> AllEnd(fs, ItemRefs(items, current, context), MAX_DEPTH - depth, MAX_LOADS - s.loads)
    decreases MAX_LOADS + 1 - s.loads, 2 + SizeAll(items), 2
  {
    hide Visit, Refs, RefEnds;
    if items != [] {
      VisitEnds(fs, s, items[0], current, depth, nodeDepth + 1, context);
      var first := Visit(fs, s, items[0], current, depth, nodeDepth + 1, context);
      if first.outcome.Ok? {
        var rest := VisitItems(fs, first.scan, items[1..], current, depth, nodeDepth, context);
        VisitItemsEnd(fs, first.scan, items[1..], current, depth, nodeDepth, context);
        if rest.outcome.Ok? && rest.scan.swallowed == {} {
          AllEndSooner(fs, ItemRefs(items[1..], current, context), MAX_DEPTH - depth, MAX_LOADS - first.scan.loads,
                       MAX_DEPTH - depth, MAX_LOADS - s.loads);
          BothEnd(fs, Refs(items[0], current, context), ItemRefs(items[1..], current, context), MAX_DEPTH - depth, MAX_LOADS - s.loads);
        }
      }
    }
  }

  lemma {:induction false} VisitPairsEnd(fs: Fs, s: Scan, pairs: seq<Pair>, keys: set<(Tag, string)>, current: Path, depth: nat,
                                         nodeDepth: nat, context: Context)
    requires s.loads <= MAX_LOADS && current != [] && depth <= MAX_DEPTH
    ensures
      var r := VisitPairs(fs, s, pairs, keys, current, depth, nodeDepth, context);
      r.outcome.Ok? && r.scan.swallowed == {} ==> AllEnd(fs, PairRefs(pairs, current, context), MAX_DEPTH - depth, MAX_LOADS - s.loads)
    decreases MAX_LOADS + 1 - s.loads, 2 + SizePairs(pairs), 2
  {
    hide Visit, Refs, RefEnds, ChildContext;
    if pairs != [] {
      var key, value := pairs[0].key, pairs[0].value;
      var child, levels, loads := ChildContext(key, context), MAX_DEPTH - depth, MAX_LOADS - s.loads;
      assert SizePairs(pairs) == SizePair(pairs[0]) + SizePairs(pairs[1..]) && SizePair(pairs[0]) == 1 + Size(key) + Size(value);
      VisitEnds(fs, s, key, current, depth, nodeDepth + 1, context);
      var first := Visit(fs, s, key, current, depth, nodeDepth + 1, context);
      if first.outcome.Ok? {
        VisitEnds(fs, first.scan, value, current, depth, nodeDepth + 1, child);
        var second := Visit(fs, first.scan, value, current, depth, nodeDepth + 1, child);
        if second.outcome.Ok? {
          var seen := if key.Scalar? then keys + {(key.tag, key.value)} else keys;
          var rest := VisitPairs(fs, second.scan, pairs[1..], seen, current, depth, nodeDepth, context);
          VisitPairsEnd(fs, second.scan, pairs[1..], seen, current, depth, nodeDepth, context);
          if rest.outcome.Ok? && rest.scan.swallowed == {} {
            AllEndSooner(fs, Refs(value, current, child), levels, MAX_LOADS - first.scan.loads, levels, loads);
            AllEndSooner(fs, PairRefs(pairs[1..], current, context), levels, MAX_LOADS - second.scan.loads, levels, loads);
            BothEnd(fs, Refs(key, current, context), Refs(value, current, child), levels, loads);
            BothEnd(fs, OnePairRefs(pairs[0], current, context), PairRefs(pairs[1..], current, context), levels, loads);
          }
        }
      }
    }
  }

  // ----- The shape of a complete scan

  /** A target ends sooner than what refers to it. */
  lemma TargetEnds(fs: Fs, from: (Path, Context), ref: Ref, to: (Path, Context), levels: nat, loads: nat)
    requires RefersTo(fs, from, ref) && Targets(fs, ref, to) && Ends(fs, from.0, levels, loads)
    ensures loads > 0
    ensures if ref.SecretRef? then Ends(fs, to.0, MAX_DEPTH, loads - 1) else levels > 0 && Ends(fs, to.0, levels - 1, loads - 1)
  {
    assert AllEnd(fs, DocumentRefs(ReadFile(fs, from.0).file.content, from.0, from.1), levels, loads);
    assert RefEnds(fs, ref, levels, loads);
    hide ReadFile, OpenDirectory, Under, Ends, DocumentRefs;
    if ref.DirRef? {
      assert to.0 == ref.path + to.0[|ref.path|..];
    }
  }

  lemma {:induction false} ReachedEnds(fs: Fs, chain: seq<(Path, Context)>, i: nat)
    requires Chain(fs, chain) && i < |chain| && Ends(fs, Root, MAX_DEPTH, MAX_LOADS)
    ensures Ends(fs, chain[i].0, MAX_DEPTH, MAX_LOADS)
  {
    hide Ends, ReadFile, DocumentRefs, Targets;
    if i > 0 {
      ReachedEnds(fs, chain, i - 1);
      var from, to := chain[i - 1], chain[i];
      assert Loads(fs, from, to);
      var ref :| ref in DocumentRefs(ReadFile(fs, from.0).file.content, from.0, from.1) && Targets(fs, ref, to);
      TargetEnds(fs, from, ref, to, MAX_DEPTH, MAX_LOADS);
      EndsSooner(fs, to.0, if ref.SecretRef? then MAX_DEPTH else MAX_DEPTH - 1, MAX_LOADS - 1, MAX_DEPTH, MAX_LOADS);
    }
  }

  /** The least number of levels, and of loads, after which everything below a file ends. */
  ghost function Height(fs: Fs, p: Path, levels: nat): (h: nat)
    requires levels <= MAX_DEPTH
    ensures levels <= h <= MAX_DEPTH
    ensures h < MAX_DEPTH ==> Ends(fs, p, h, MAX_LOADS)
    ensures forall k: nat | levels <= k < h :: !Ends(fs, p, k, MAX_LOADS)
    decreases MAX_DEPTH - levels
  {
    hide Ends;
    if levels == MAX_DEPTH || Ends(fs, p, levels, MAX_LOADS) then levels else Height(fs, p, levels + 1)
  }

  ghost function Order(fs: Fs, p: Path, loads: nat): (o: nat)
    requires loads <= MAX_LOADS
    ensures loads <= o <= MAX_LOADS
    ensures o < MAX_LOADS ==> Ends(fs, p, MAX_DEPTH, o)
    ensures forall k: nat | loads <= k < o :: !Ends(fs, p, MAX_DEPTH, k)
    decreases MAX_LOADS - loads
  {
    hide Ends;
    if loads == MAX_LOADS || Ends(fs, p, MAX_DEPTH, loads) then loads else Order(fs, p, loads + 1)
  }

  ghost function ShapeOf(fs: Fs): Shape {
    Shape(p => Order(fs, p, 0), p => Height(fs, p, 0))
  }

  lemma TargetFits(fs: Fs, from: (Path, Context), ref: Ref, to: (Path, Context))
    requires RefersTo(fs, from, ref) && Targets(fs, ref, to) && Ends(fs, from.0, MAX_DEPTH, MAX_LOADS)
    ensures Fits(ShapeOf(fs), from.0, ref, to.0)
  {
    hide Ends, RefersTo, Targets;
    var o, h := Order(fs, from.0, 0), Height(fs, from.0, 0);
    TargetEnds(fs, from, ref, to, MAX_DEPTH, o);
    EndsSooner(fs, to.0, if ref.SecretRef? then MAX_DEPTH else MAX_DEPTH - 1, o - 1, MAX_DEPTH, o - 1);
    if !ref.SecretRef? {
      TargetEnds(fs, from, ref, to, h, MAX_LOADS);
      EndsSooner(fs, to.0, h - 1, MAX_LOADS - 1, h - 1, MAX_LOADS);
    }
  }

  /**
   A configuration is scanned completely, with nothing ignored, only if it is well-made; and if it is well-made, the
   scan is complete, ignores nothing and keeps within every limit, or it ended where something more does not fit one.
   */
  lemma WellMadeExactly(fs: Fs)
    ensures
      var r := Scanned(fs);
      if r.outcome.Ok? && r.scan.swallowed == {} then Within(r.scan) && exists shape :: WellMade(fs, shape)
      else Full(fs, r.scan) || !exists shape :: WellMade(fs, shape)
  {
    hide Load, Ends, Proper, Within, Full, Reachable, Shaped;
    var r := Scanned(fs);
    if r.outcome.Ok? && r.scan.swallowed == {} {
      CompleteIsProper(fs);
      CompleteIsShaped(fs);
      assert WellMade(fs, ShapeOf(fs));
    }
    if exists shape :: WellMade(fs, shape) {
      var shape :| WellMade(fs, shape);
      ScanIsComplete(fs, shape);
    }
  }

  lemma CompleteIsShaped(fs: Fs)
    requires Scanned(fs).outcome.Ok? && Scanned(fs).scan.swallowed == {}
    ensures Shaped(fs, ShapeOf(fs))
  {
    hide Load, Ends, Fits, RefersTo, Targets, Loads;
    LoadEnds(fs, NewScan, Root, 0, []);
    EndsSooner(fs, Root, MAX_DEPTH, MAX_LOADS - 1, MAX_DEPTH, MAX_LOADS);
    forall from: (Path, Context), ref, to: (Path, Context) | Reachable(fs, from) && RefersTo(fs, from, ref) && Targets(fs, ref, to)
      ensures Fits(ShapeOf(fs), from.0, ref, to.0)
    {
      var chain :| Chain(fs, chain) && chain[|chain| - 1] == from;
      ReachedEnds(fs, chain, |chain| - 1);
      TargetFits(fs, from, ref, to);
    }
  }
}
