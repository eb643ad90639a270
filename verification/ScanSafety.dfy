/**
 What a successful scan has seen: everything its documents refer to, each in its context.
 */
module ScanSafety {
  import opened Models
  import opened SourceGraph

  // ----- Well-made documents

  /** A text that a tag may carry. */
  predicate PlainOperand(value: string) {
    value != "" && |value| <= 1024 && forall c | c in value :: c >= ' '
  }

  /** Known tags on scalars, operands that name something, no key twice, and not too deep. */
  predicate Regular(n: Node, level: nat)
    decreases 2 + Size(n), 1
  {
    && level <= MAX_NODE_DEPTH && !n.tag.Unrecognized?
    && if !n.tag.Yaml? then
         n.Scalar? && (n.tag.EnvVar? || n.tag.Input? || (PlainOperand(n.value) && (n.tag.Secret? || Parts(n.value).Some?)))
       else match n
         case Scalar(_, _) => true
         case Sequence(_, items) => RegularItems(items, level)
         case Mapping(_, pairs) => RegularPairs(pairs, {}, level)
  }

  predicate RegularItems(items: seq<Node>, level: nat)
    decreases 2 + SizeAll(items), 2
  {
    items != [] ==> Regular(items[0], level + 1) && RegularItems(items[1..], level)
  }

  predicate RegularPairs(pairs: seq<Pair>, keys: set<(Tag, string)>, level: nat)
    decreases 2 + SizePairs(pairs), 2
  {
    pairs != [] ==>
      var key, value := pairs[0].key, pairs[0].value;
      assert SizePairs(pairs) == SizePair(pairs[0]) + SizePairs(pairs[1..]) && SizePair(pairs[0]) == 1 + Size(key) + Size(value);
      && (key.Scalar? ==> (key.tag, key.value) !in keys)
      && Regular(key, level + 1) && Regular(value, level + 1)
      && RegularPairs(pairs[1..], if key.Scalar? then keys + {(key.tag, key.value)} else keys, level)
  }

  predicate RegularContent(content: Content) {
    !content.Malformed? && (content.Document? ==> Regular(content.root, 1))
  }

  // ----- Well-made directories

  /** No links and no devices among what is visible. */
  predicate PlainDirectory(dir: Fs)
    decreases dir, 1
  {
    dir.Dir? && PlainEntries(dir, dir.entries)
  }

  predicate PlainEntries(dir: Fs, entries: seq<Entry>)
    requires dir.Dir? && forall e | e in entries :: e in dir.entries
    decreases dir, 0, |entries|
  {
    entries != [] ==>
      assert entries[0] in dir.entries;
      && (Hidden(entries[0]) || (entries[0].node.File? && entries[0].node.single) || PlainDirectory(entries[0].node))
      && PlainEntries(dir, entries[1..])
  }

  predicate Hidden(e: Entry) {
    e.name != "" && e.name[0] == '.'
  }

  predicate Includable(fs: Fs, d: Path) {
    OpenDirectory(fs, d).Found? && PlainDirectory(OpenDirectory(fs, d).file)
  }

  // ----- References

  /** What a tagged node refers to. */
  datatype Ref = FileRef(path: Path, context: Context) | DirRef(path: Path, context: Context) | SecretRef(parent: Path, context: Context)

  /** The references below a node of the document at `current`. */
  function Refs(n: Node, current: Path, context: Context): set<Ref>
    requires current != []
  {
    if !n.tag.Yaml? then TagRefs(n, current, context)
    else match n
      case Scalar(_, _) => {}
      case Sequence(_, items) => ItemRefs(items, current, context)
      case Mapping(_, pairs) => PairRefs(pairs, current, context)
  }

  function TagRefs(n: Node, current: Path, context: Context): set<Ref>
    requires current != []
  {
    var here := current[..|current| - 1];
    if !n.Scalar? || n.tag.EnvVar? || n.tag.Input? || n.tag.Unrecognized? then {}
    else if n.tag.Secret? then {SecretRef(here, context)}
    else if Parts(n.value).None? then {}
    else if n.tag.Include? then {FileRef(here + Parts(n.value).value, context)}
    else {DirRef(here + Parts(n.value).value, context)}
  }

  function ItemRefs(items: seq<Node>, current: Path, context: Context): set<Ref>
    requires current != []
  {
    if items == [] then {} else Refs(items[0], current, context) + ItemRefs(items[1..], current, context)
  }

  function PairRefs(pairs: seq<Pair>, current: Path, context: Context): set<Ref>
    requires current != []
  {
    if pairs == [] then {} else OnePairRefs(pairs[0], current, context) + PairRefs(pairs[1..], current, context)
  }

  function OnePairRefs(pair: Pair, current: Path, context: Context): set<Ref>
    requires current != []
  {
    Refs(pair.key, current, context) + Refs(pair.value, current, ChildContext(pair.key, context))
  }

  function DocumentRefs(content: Content, current: Path, context: Context): set<Ref>
    requires current != []
  {
    if content.Document? then Refs(content.root, current, context) else {}
  }

  // ----- Settled references

  predicate SecretSettled(fs: Fs, s: Scan, q: Path, context: Context) {
    q in s.secrets && (ReadFile(fs, q).Gone? || (q, context) in s.done || q in s.swallowed)
  }

  predicate FilesSettled(s: Scan, d: Path, inventory: set<Path>, context: Context) {
    forall f | f in inventory :: (d + f, context) in s.done
  }

  predicate Settled(fs: Fs, s: Scan, ref: Ref) {
    match ref
    case FileRef(q, context) => (q, context) in s.done
    case DirRef(d, context) => d in s.directories && FilesSettled(s, d, s.directories[d].inventory, context)
    case SecretRef(parent, context) =>
      forall i | 0 <= i <= |parent| :: SecretSettled(fs, s, parent[..i] + ["secrets.yaml"], context)
  }

  predicate AllSettled(fs: Fs, s: Scan, refs: set<Ref>) {
    forall ref | ref in refs :: Settled(fs, s, ref)
  }

  predicate SourceOf(fs: Fs, p: Path, source: Source) {
    ReadFile(fs, p).Found? && source == Source(ReadFile(fs, p).file.info, ReadFile(fs, p).file.content)
  }

  /** A completed load: its file is on record with a regular document, as granting if its context is; its references are settled. */
  predicate DoneWell(fs: Fs, s: Scan, p: Path, context: Context) {
    && p != [] && p in s.sources && RegularContent(s.sources[p].content)
    && (DefinesGrants(context) ==> p in s.grants)
    && AllSettled(fs, s, DocumentRefs(s.sources[p].content, p, context))
  }

  /** A file of an included directory: a visible YAML name, no secrets file, below visible directories only. */
  ghost predicate Under(dir: Fs, f: Path)
    decreases |f|
  {
    dir.Dir? && f != [] && exists e | e in dir.entries :: UnderEntry(e, f)
  }

  ghost predicate UnderEntry(e: Entry, f: Path)
    decreases |f|, 0
  {
    && f != [] && e.name == f[0] && !(e.name != "" && e.name[0] == '.')
    && if |f| == 1 then e.node.File? && e.name != "secrets.yaml" && |e.name| >= 5 && e.name[|e.name| - 5..] == ".yaml"
       else e.node.Dir? && Under(e.node, f[1..])
  }

  /** The recorded scope is of this plain directory, and lists exactly its files. */
  ghost predicate ScopeOf(fs: Fs, d: Path, scope: Scope) {
    && Includable(fs, d) && scope.info == OpenDirectory(fs, d).file.info
    && forall f :: f in scope.inventory <==> Under(OpenDirectory(fs, d).file, f)
  }

  ghost predicate Closed(fs: Fs, s: Scan) {
    && (forall d | d in s.done :: DoneWell(fs, s, d.0, d.1))
    && (forall p | p in s.sources :: SourceOf(fs, p, s.sources[p]))
    && (forall d | d in s.directories :: ScopeOf(fs, d, s.directories[d]))
  }

  predicate Extends(small: map<Path, Source>, large: map<Path, Source>) {
    forall p | p in small :: p in large && large[p] == small[p]
  }

  predicate Grown(s: Scan, t: Scan) {
    && Extends(s.sources, t.sources)
    && (forall d | d in s.directories :: d in t.directories && t.directories[d] == s.directories[d])
    && s.secrets <= t.secrets && s.grants <= t.grants && s.done <= t.done && s.swallowed <= t.swallowed
  }

  lemma GrownTwice(s: Scan, t: Scan, u: Scan)
    requires Grown(s, t) && Grown(t, u)
    ensures Grown(s, u)
  {
  }

  lemma StaysSettled(fs: Fs, s: Scan, t: Scan, refs: set<Ref>)
    requires Grown(s, t) && AllSettled(fs, s, refs)
    ensures AllSettled(fs, t, refs)
  {
    hide ReadFile;
    forall ref | ref in refs ensures Settled(fs, t, ref) {
      assert Settled(fs, s, ref);
      if ref.SecretRef? {
        forall i | 0 <= i <= |ref.parent| ensures SecretSettled(fs, t, ref.parent[..i] + ["secrets.yaml"], ref.context) {
          assert SecretSettled(fs, s, ref.parent[..i] + ["secrets.yaml"], ref.context);
        }
      }
    }
  }

  /** Counters and new facts do not reopen what is done. */
  lemma StaysClosed(fs: Fs, s: Scan, t: Scan)
    requires Closed(fs, s) && Grown(s, t) && t.done == s.done
    requires forall p | p in t.sources :: SourceOf(fs, p, t.sources[p])
    requires forall d | d in t.directories :: ScopeOf(fs, d, t.directories[d])
    ensures Closed(fs, t)
  {
    hide SourceOf, ScopeOf, AllSettled;
    forall d | d in t.done ensures DoneWell(fs, t, d.0, d.1) {
      assert DoneWell(fs, s, d.0, d.1);
      StaysSettled(fs, s, t, DocumentRefs(s.sources[d.0].content, d.0, d.1));
    }
  }

  /** A step that did not end in denial only added facts, and left the scan closed. */
  ghost predicate Kept(fs: Fs, s: Scan, r: Progress) {
    !r.outcome.Denied? ==> Grown(s, r.scan) && Closed(fs, r.scan)
  }

  predicate SameFacts(s: Scan, t: Scan) {
    t.sources == s.sources && t.directories == s.directories && t.secrets == s.secrets && t.grants == s.grants &&
    t.done == s.done && t.swallowed == s.swallowed
  }

  lemma SameFactsKept(fs: Fs, s: Scan, t: Scan)
    requires SameFacts(s, t)
    ensures Grown(s, t) && (Closed(fs, s) ==> Closed(fs, t))
  {
    hide SourceOf, ScopeOf, DoneWell;
    if Closed(fs, s) {
      StaysClosed(fs, s, t);
    }
  }

  lemma KeptAfter(fs: Fs, s: Scan, t: Scan, r: Progress)
    requires Grown(s, t) && Kept(fs, t, r)
    ensures Kept(fs, s, r)
  {
    hide Closed, Grown;
    if !r.outcome.Denied? {
      GrownTwice(s, t, r.scan);
    }
  }

  // ----- The walk keeps the scan closed

  lemma NotedKept(fs: Fs, s: Scan, parts: Path, file: Fs, context: Context)
    requires Closed(fs, s) && ReadFile(fs, parts) == Found(file) && Acceptable(s.sources, s.totalBytes, parts, file)
    ensures Grown(s, Noted(s, parts, file, context)) && Closed(fs, Noted(s, parts, file, context))
    ensures SourceOf(fs, parts, Noted(s, parts, file, context).sources[parts])
  {
    hide ReadFile, DoneWell, ScopeOf;
    StaysClosed(fs, s, Noted(s, parts, file, context));
  }

  /** Marking a load as done once its references are settled. */
  lemma DoneKept(fs: Fs, s: Scan, t: Scan, parts: Path, context: Context)
    requires Closed(fs, s) && DoneWell(fs, s, parts, context)
    requires t == s.(stack := t.stack, done := s.done + {(parts, context)})
    ensures Grown(s, t) && Closed(fs, t) && (parts, context) in t.done
  {
    hide SourceOf, ScopeOf, AllSettled;
    forall d | d in t.done ensures DoneWell(fs, t, d.0, d.1) {
      assert DoneWell(fs, s, d.0, d.1);
      StaysSettled(fs, s, t, DocumentRefs(s.sources[d.0].content, d.0, d.1));
    }
  }

  /** The state in which the document of a file is visited. */
  function Opened(s: Scan, parts: Path, file: Fs, context: Context): Scan
    requires file.File?
  {
    var weighed := s.(loads := s.loads + 1, totalBytes := s.totalBytes + file.size);
    var noted := Noted(weighed, parts, file, context);
    noted.(events := noted.events + file.content.events)
  }

  predicate Opens(fs: Fs, s: Scan, parts: Path, depth: nat, context: Context) {
    && depth <= MAX_DEPTH && parts !in s.stack && s.loads + 1 <= MAX_LOADS && ReadFile(fs, parts).Found?
    && var file := ReadFile(fs, parts).file;
       && Acceptable(s.sources, s.totalBytes + file.size, parts, file) && Parsable(s.events, file.content)
  }

  function Visited(fs: Fs, s: Scan, parts: Path, depth: nat, context: Context): Progress
    requires s.loads <= MAX_LOADS && Opens(fs, s, parts, depth, context)
  {
    var file := ReadFile(fs, parts).file;
    assert parts != [];
    if file.content.Empty? then Progress(Ok, Opened(s, parts, file, context))
    else Visit(fs, Opened(s, parts, file, context), file.content.root, parts, depth, 1, context)
  }

  lemma LoadCases(fs: Fs, s: Scan, parts: Path, depth: nat, context: Context)
    requires s.loads <= MAX_LOADS
    ensures
      var r := Load(fs, s, parts, depth, context);
      if Opens(fs, s, parts, depth, context) then
        var inner := Visited(fs, s, parts, depth, context);
        r == Progress(inner.outcome, inner.scan.(stack := s.stack,
                      done := if inner.outcome.Ok? then inner.scan.done + {(parts, context)} else inner.scan.done))
      else if depth <= MAX_DEPTH && parts !in s.stack && s.loads + 1 <= MAX_LOADS && ReadFile(fs, parts).Gone? then
        r == Progress(Missing, s.(loads := s.loads + 1))
      else r.outcome.Denied?
  {
    hide ReadFile, Visit, Acceptable, Parsable, DefinesGrants;
  }

  // ----- Only regular documents are visited to the end

  lemma {:induction false} VisitIsRegular(fs: Fs, s: Scan, n: Node, current: Path, depth: nat, nodeDepth: nat, context: Context)
    requires s.loads <= MAX_LOADS && current != []
    ensures Visit(fs, s, n, current, depth, nodeDepth, context).outcome.Ok? ==> Regular(n, nodeDepth)
    decreases 2 + Size(n), 1
  {
    hide VisitTag, VisitItems, VisitPairs, RegularItems, RegularPairs, Parts;
    if !(nodeDepth > MAX_NODE_DEPTH || s.nodes + 1 > MAX_NODES || n.tag.Unrecognized?) {
      var counted := s.(nodes := s.nodes + 1);
      if !n.tag.Yaml? {
        TagIsRegular(fs, counted, n, current, depth, nodeDepth, context);
      } else {
        match n
        case Scalar(_, _) =>
        case Sequence(_, items) => ItemsAreRegular(fs, counted, items, current, depth, nodeDepth, context);
        case Mapping(_, pairs) => PairsAreRegular(fs, counted, pairs, {}, current, depth, nodeDepth, context);
      }
    }
  }

  lemma TagIsRegular(fs: Fs, s: Scan, n: Node, current: Path, depth: nat, nodeDepth: nat, context: Context)
    requires s.loads <= MAX_LOADS && current != [] && !n.tag.Yaml? && !n.tag.Unrecognized? && nodeDepth <= MAX_NODE_DEPTH
    ensures VisitTag(fs, s, n, current, depth, context).outcome.Ok? ==> Regular(n, nodeDepth)
  {
    hide Load, IncludeDirectory, SecretCandidates, Parts;
  }

  lemma {:induction false} ItemsAreRegular(fs: Fs, s: Scan, items: seq<Node>, current: Path, depth: nat, nodeDepth: nat, context: Context)
    requires s.loads <= MAX_LOADS && current != []
    ensures VisitItems(fs, s, items, current, depth, nodeDepth, context).outcome.Ok? ==> RegularItems(items, nodeDepth)
    decreases 2 + SizeAll(items), 2
  {
    hide Visit, Regular;
    if items != [] {
      VisitIsRegular(fs, s, items[0], current, depth, nodeDepth + 1, context);
      var first := Visit(fs, s, items[0], current, depth, nodeDepth + 1, context);
      if first.outcome.Ok? {
        ItemsAreRegular(fs, first.scan, items[1..], current, depth, nodeDepth, context);
      }
    }
  }

  lemma {:induction false} PairsAreRegular(fs: Fs, s: Scan, pairs: seq<Pair>, keys: set<(Tag, string)>, current: Path, depth: nat,
                                           nodeDepth: nat, context: Context)
    requires s.loads <= MAX_LOADS && current != []
    ensures VisitPairs(fs, s, pairs, keys, current, depth, nodeDepth, context).outcome.Ok? ==> RegularPairs(pairs, keys, nodeDepth)
    decreases 2 + SizePairs(pairs), 2
  {
    hide Visit, Regular, ChildContext;
    if pairs != [] {
      var key, value := pairs[0].key, pairs[0].value;
      var child := ChildContext(key, context);
      assert SizePairs(pairs) == SizePair(pairs[0]) + SizePairs(pairs[1..]) && SizePair(pairs[0]) == 1 + Size(key) + Size(value);
      VisitIsRegular(fs, s, key, current, depth, nodeDepth + 1, context);
      var first := Visit(fs, s, key, current, depth, nodeDepth + 1, context);
      if first.outcome.Ok? {
        VisitIsRegular(fs, first.scan, value, current, depth, nodeDepth + 1, child);
        var second := Visit(fs, first.scan, value, current, depth, nodeDepth + 1, child);
        if second.outcome.Ok? {
          var seen := if key.Scalar? then keys + {(key.tag, key.value)} else keys;
          PairsAreRegular(fs, second.scan, pairs[1..], seen, current, depth, nodeDepth, context);
        }
      }
    }
  }

  lemma VisitedIsRegular(fs: Fs, s: Scan, parts: Path, depth: nat, context: Context)
    requires s.loads <= MAX_LOADS && Opens(fs, s, parts, depth, context)
    ensures Visited(fs, s, parts, depth, context).outcome.Ok? ==> RegularContent(ReadFile(fs, parts).file.content)
  {
    var file := ReadFile(fs, parts).file;
    assert parts != [];
    hide ReadFile, Visit, Regular, Opened, Acceptable;
    if file.content.Document? {
      VisitIsRegular(fs, Opened(s, parts, file, context), file.content.root, parts, depth, 1, context);
    }
  }

  lemma OpenedKept(fs: Fs, s: Scan, parts: Path, depth: nat, context: Context)
    requires Closed(fs, s) && Opens(fs, s, parts, depth, context)
    ensures
      var file := ReadFile(fs, parts).file;
      var t := Opened(s, parts, file, context);
      Grown(s, t) && Closed(fs, t) && parts in t.sources && SourceOf(fs, parts, t.sources[parts]) &&
      (DefinesGrants(context) ==> parts in t.grants)
  {
    hide ReadFile, Closed, Grown;
    var file := ReadFile(fs, parts).file;
    var weighed := s.(loads := s.loads + 1, totalBytes := s.totalBytes + file.size);
    SameFactsKept(fs, s, weighed);
    NotedKept(fs, weighed, parts, file, context);
    GrownTwice(s, weighed, Noted(weighed, parts, file, context));
    SameFactsKept(fs, Noted(weighed, parts, file, context), Opened(s, parts, file, context));
    GrownTwice(s, Noted(weighed, parts, file, context), Opened(s, parts, file, context));
  }

  lemma {:induction false} LoadKeeps(fs: Fs, s: Scan, parts: Path, depth: nat, context: Context)
    requires s.loads <= MAX_LOADS && Closed(fs, s)
    ensures
      var r := Load(fs, s, parts, depth, context);
      Kept(fs, s, r) && (r.outcome.Ok? ==> (parts, context) in r.scan.done)
    decreases MAX_LOADS + 1 - s.loads, 0, 0
  {
    hide ReadFile, Closed, Grown, Load, Visit, DocumentRefs;
    LoadCases(fs, s, parts, depth, context);
    if Opens(fs, s, parts, depth, context) {
      OpenedKept(fs, s, parts, depth, context);
      VisitedKeeps(fs, s, parts, depth, context);
      VisitedIsRegular(fs, s, parts, depth, context);
      LoadedKeeps(fs, s, parts, depth, context);
    } else {
      SameFactsKept(fs, s, s.(loads := s.loads + 1));
    }
  }

  /** The visit of an opened document. */
  lemma VisitedKeeps(fs: Fs, s: Scan, parts: Path, depth: nat, context: Context)
    requires s.loads <= MAX_LOADS && Opens(fs, s, parts, depth, context)
    requires Closed(fs, Opened(s, parts, ReadFile(fs, parts).file, context))
    ensures
      var file := ReadFile(fs, parts).file;
      var inner := Visited(fs, s, parts, depth, context);
      && parts != []
      && Kept(fs, Opened(s, parts, file, context), inner)
      && (inner.outcome.Ok? ==> AllSettled(fs, inner.scan, DocumentRefs(file.content, parts, context)))
    decreases MAX_LOADS + 1 - s.loads, 0, 0, 0
  {
    hide Closed, Visit, AllSettled;
    var file := ReadFile(fs, parts).file;
    assert parts != [];
    hide ReadFile;
    if file.content.Empty? {
      NothingSettled(fs, Opened(s, parts, file, context));
      SameFactsKept(fs, Opened(s, parts, file, context), Opened(s, parts, file, context));
    } else {
      VisitKeeps(fs, Opened(s, parts, file, context), file.content.root, parts, depth, 1, context);
    }
  }

  lemma NothingSettled(fs: Fs, s: Scan)
    ensures AllSettled(fs, s, {})
  {
  }

  lemma StillOpened(s: Scan, t: Scan, parts: Path, context: Context, source: Source)
    requires Grown(s, t) && parts in s.sources && s.sources[parts] == source && (DefinesGrants(context) ==> parts in s.grants)
    ensures parts in t.sources && t.sources[parts] == source && (DefinesGrants(context) ==> parts in t.grants)
  {
  }

  lemma LoadedKeeps(fs: Fs, s: Scan, parts: Path, depth: nat, context: Context)
    requires s.loads <= MAX_LOADS && Opens(fs, s, parts, depth, context) && parts != []
    requires Visited(fs, s, parts, depth, context).outcome.Ok? ==> RegularContent(ReadFile(fs, parts).file.content)
    requires
      var file := ReadFile(fs, parts).file;
      var t, inner := Opened(s, parts, file, context), Visited(fs, s, parts, depth, context);
      && Grown(s, t) && parts in t.sources && SourceOf(fs, parts, t.sources[parts]) && (DefinesGrants(context) ==> parts in t.grants)
      && Kept(fs, t, inner)
      && (inner.outcome.Ok? ==> AllSettled(fs, inner.scan, DocumentRefs(file.content, parts, context)))
    ensures
      var inner := Visited(fs, s, parts, depth, context);
      var r := Progress(inner.outcome, inner.scan.(stack := s.stack,
                        done := if inner.outcome.Ok? then inner.scan.done + {(parts, context)} else inner.scan.done));
      Kept(fs, s, r) && (r.outcome.Ok? ==> (parts, context) in r.scan.done)
  {
    hide Closed, Grown, AllSettled, DocumentRefs, Visited, Opened, ReadFile, Opens, RegularContent;
    var file := ReadFile(fs, parts).file;
    var t, inner := Opened(s, parts, file, context), Visited(fs, s, parts, depth, context);
    if inner.outcome.Ok? {
      var final := inner.scan.(stack := s.stack, done := inner.scan.done + {(parts, context)});
      StillOpened(t, inner.scan, parts, context, Source(file.info, file.content));
      DoneKept(fs, inner.scan, final, parts, context);
      GrownTwice(s, t, inner.scan);
      GrownTwice(s, inner.scan, final);
    } else if inner.outcome.Missing? {
      var final := inner.scan.(stack := s.stack);
      SameFactsKept(fs, inner.scan, final);
      GrownTwice(s, t, inner.scan);
      GrownTwice(s, inner.scan, final);
    }
  }

  lemma {:induction false} LoadAllKeeps(fs: Fs, s: Scan, files: seq<Path>, depth: nat, context: Context)
    requires s.loads <= MAX_LOADS && Closed(fs, s)
    ensures
      var r := LoadAll(fs, s, files, depth, context);
      Kept(fs, s, r) && (r.outcome.Ok? ==> forall f | f in files :: (f, context) in r.scan.done)
    decreases MAX_LOADS + 1 - s.loads, 0, 1 + |files|
  {
    hide Closed, Load;
    if files == [] {
      SameFactsKept(fs, s, s);
    } else {
      var first := Load(fs, s, files[0], depth, context);
      LoadKeeps(fs, s, files[0], depth, context);
      if first.outcome.Ok? {
        LoadAllKeeps(fs, first.scan, files[1..], depth, context);
        KeptAfter(fs, s, first.scan, LoadAll(fs, first.scan, files[1..], depth, context));
      }
    }
  }

  /** Candidates from the given index down are settled. */
  predicate SecretsSettled(fs: Fs, s: Scan, parent: Path, index: nat, context: Context)
    requires index <= |parent|
  {
    forall i | 0 <= i <= index :: SecretSettled(fs, s, parent[..i] + ["secrets.yaml"], context)
  }

  lemma SecretStays(fs: Fs, s: Scan, t: Scan, q: Path, context: Context)
    requires Grown(s, t) && SecretSettled(fs, s, q, context)
    ensures SecretSettled(fs, t, q, context)
  {
    hide ReadFile;
  }

  /** One candidate: loaded, missing, or noted as one whose missing include was ignored. */
  lemma CandidateKeeps(fs: Fs, s: Scan, q: Path, context: Context)
    requires s.loads <= MAX_LOADS && Closed(fs, s)
    ensures
      var first := Load(fs, s.(secrets := s.secrets + {q}), q, 0, context);
      var later := if first.outcome.Missing? && !ReadFile(fs, q).Gone? then first.scan.(swallowed := first.scan.swallowed + {q}) else first.scan;
      !first.outcome.Denied? ==> Grown(s, later) && Closed(fs, later) && SecretSettled(fs, later, q, context) && later.loads == first.scan.loads
    decreases MAX_LOADS + 1 - s.loads, 0, 1
  {
    hide Load, ReadFile, SourceOf, ScopeOf, DoneWell;
    var named := s.(secrets := s.secrets + {q});
    StaysClosed(fs, s, named);
    LoadKeeps(fs, named, q, 0, context);
    var first := Load(fs, named, q, 0, context);
    if !first.outcome.Denied? {
      GrownTwice(s, named, first.scan);
      var later := if first.outcome.Missing? && !ReadFile(fs, q).Gone? then first.scan.(swallowed := first.scan.swallowed + {q}) else first.scan;
      StaysClosed(fs, first.scan, later);
      GrownTwice(s, first.scan, later);
    }
  }

  lemma {:induction false} SecretsKeep(fs: Fs, s: Scan, parent: Path, index: nat, context: Context)
    requires s.loads <= MAX_LOADS && index <= |parent| && Closed(fs, s)
    ensures
      var r := SecretCandidates(fs, s, parent, index, context);
      Kept(fs, s, r) && (r.outcome.Ok? ==> SecretsSettled(fs, r.scan, parent, index, context))
    decreases MAX_LOADS + 1 - s.loads, 0, 2 + index
  {
    hide Load, ReadFile, Closed, Grown, SecretSettled;
    var q := parent[..index] + ["secrets.yaml"];
    CandidateKeeps(fs, s, q, context);
    var first := Load(fs, s.(secrets := s.secrets + {q}), q, 0, context);
    var later := if first.outcome.Missing? && !ReadFile(fs, q).Gone? then first.scan.(swallowed := first.scan.swallowed + {q}) else first.scan;
    if !first.outcome.Denied? && index > 0 {
      SecretsKeep(fs, later, parent, index - 1, context);
      var r := SecretCandidates(fs, later, parent, index - 1, context);
      KeptAfter(fs, s, later, r);
      if r.outcome.Ok? {
        SecretStays(fs, later, r.scan, q, context);
      }
    }
  }

  // ----- Directories

  /** The files of a walk are those of its inventory. */
  predicate Listed(w: Walk, scope: Path) {
    && (forall f | f in w.inventory :: scope + f in w.files)
    && (forall p | p in w.files :: exists f :: f in w.inventory && p == scope + f)
  }

  lemma {:induction false} WalkDirectoryListed(dir: Fs, scope: Path, relative: Path, w: Walk)
    requires dir.Dir? && Listed(w, scope)
    ensures var r := WalkDirectory(dir, scope, relative, w); r.Some? ==> Listed(r.value, scope)
    decreases dir, 1
  {
    hide Listed;
    var counted := w.(directories := w.directories + 1);
    ListedSame(w, counted, scope);
    WalkEntriesListed(dir, dir.entries, scope, relative, counted);
  }

  lemma ListedSame(w: Walk, v: Walk, scope: Path)
    requires Listed(w, scope) && v.inventory == w.inventory && v.files == w.files
    ensures Listed(v, scope)
  {
  }

  lemma {:induction false} WalkEntriesListed(dir: Fs, entries: seq<Entry>, scope: Path, relative: Path, w: Walk)
    requires dir.Dir? && (forall e | e in entries :: e in dir.entries) && Listed(w, scope)
    ensures var r := WalkEntries(dir, entries, scope, relative, w); r.Some? ==> Listed(r.value, scope)
    decreases dir, 0, |entries|
  {
    hide Listed, WalkEntry;
    if entries != [] {
      WalkEntryListed(dir, entries[0], scope, relative, w);
      var first := WalkEntry(dir, entries[0], scope, relative, w);
      if first.Some? {
        WalkEntriesListed(dir, entries[1..], scope, relative, first.value);
      }
    }
  }

  lemma {:induction false} WalkEntryListed(dir: Fs, e: Entry, scope: Path, relative: Path, w: Walk)
    requires dir.Dir? && e in dir.entries && Listed(w, scope)
    ensures var r := WalkEntry(dir, e, scope, relative, w); r.Some? ==> Listed(r.value, scope)
    decreases dir, 0, 0
  {
    hide WalkDirectory, YamlName;
    var counted := w.(entries := w.entries + 1);
    ListedSame(w, counted, scope);
    if e.node.Dir? {
      hide Listed;
      WalkDirectoryListed(e.node, scope, relative + [e.name], counted);
    } else {
      ListedAdd(counted, scope, relative + [e.name]);
      assert scope + relative + [e.name] == scope + (relative + [e.name]);
    }
  }

  lemma ListedAdd(w: Walk, scope: Path, f: Path)
    requires Listed(w, scope)
    ensures Listed(w.(inventory := w.inventory + {f}, files := w.files + [scope + f]), scope)
  {
    var v := w.(inventory := w.inventory + {f}, files := w.files + [scope + f]);
    assert v.files[|w.files|] == scope + f;
    forall g | g in v.inventory ensures scope + g in v.files {
      if g != f { assert scope + g in w.files; }
    }
    forall p | p in v.files ensures exists g :: g in v.inventory && p == scope + g {
      if p in w.files {
        var g :| g in w.inventory && p == scope + g;
        assert g in v.inventory;
      } else {
        assert f in v.inventory && p == scope + f;
      }
    }
  }

  lemma {:induction false} IncludeDirectoryKeeps(fs: Fs, s: Scan, parts: Path, depth: nat, context: Context)
    requires s.loads <= MAX_LOADS && Closed(fs, s)
    ensures
      var r := IncludeDirectory(fs, s, parts, depth, context);
      Kept(fs, s, r) && (r.outcome.Ok? ==> Settled(fs, r.scan, DirRef(parts, context)))
    decreases MAX_LOADS + 1 - s.loads, 1, 0
  {
    hide Closed, LoadAll, OpenDirectory, WalkDirectory, Listed, ReadFile, ScopeOf;
    SameFactsKept(fs, s, s);
    if OpenDirectory(fs, parts).Found? {
      var dir := OpenDirectory(fs, parts).file;
      var walk := WalkDirectory(dir, parts, [], Walk(s.directoriesSeen, s.entries, {}, []));
      if walk.Some? {
        var scope := Scope(dir.info, walk.value.inventory);
        var counted := s.(directoriesSeen := walk.value.directories, entries := walk.value.entries);
        if !(parts in s.directories && s.directories[parts] != scope) {
          assert Listed(Walk(s.directoriesSeen, s.entries, {}, []), parts) by { NothingListed(s.directoriesSeen, s.entries, parts); }
          WalkDirectoryListed(dir, parts, [], Walk(s.directoriesSeen, s.entries, {}, []));
          WalkIsScope(fs, parts, Walk(s.directoriesSeen, s.entries, {}, []));
          ScopedKeeps(fs, s, counted.(directories := s.directories[parts := scope]), walk.value, parts, depth, context);
        }
      }
    }
  }

  /** The walk collects exactly the files below the directory. */
  lemma {:induction false} WalkDirectoryCollects(dir: Fs, scope: Path, relative: Path, w: Walk, f: Path)
    requires dir.Dir? && WalkDirectory(dir, scope, relative, w).Some?
    ensures f in WalkDirectory(dir, scope, relative, w).value.inventory <==>
            f in w.inventory || (relative <= f && Under(dir, f[|relative|..]))
    decreases dir, 1
  {
    hide Under;
    WalkEntriesCollect(dir, dir.entries, scope, relative, w.(directories := w.directories + 1), f);
    if relative <= f {
      UnderIsEntries(dir, f[|relative|..]);
    }
  }

  ghost predicate UnderEntries(entries: seq<Entry>, f: Path) {
    exists e | e in entries :: UnderEntry(e, f)
  }

  lemma UnderIsEntries(dir: Fs, f: Path)
    requires dir.Dir?
    ensures Under(dir, f) <==> UnderEntries(dir.entries, f)
  {
  }

  lemma UnderFirst(entries: seq<Entry>, f: Path)
    requires entries != []
    ensures UnderEntries(entries, f) <==> UnderEntry(entries[0], f) || UnderEntries(entries[1..], f)
  {
    hide UnderEntry;
    assert entries == [entries[0]] + entries[1..];
  }

  lemma {:induction false} WalkEntriesCollect(dir: Fs, entries: seq<Entry>, scope: Path, relative: Path, w: Walk, f: Path)
    requires dir.Dir? && (forall e | e in entries :: e in dir.entries)
    requires WalkEntries(dir, entries, scope, relative, w).Some?
    ensures f in WalkEntries(dir, entries, scope, relative, w).value.inventory <==>
            f in w.inventory || (relative <= f && UnderEntries(entries, f[|relative|..]))
    decreases dir, 0, |entries|
  {
    hide UnderEntries, WalkEntry, UnderEntry;
    if entries == [] {
      NothingUnder(f);
      if relative <= f { NothingUnder(f[|relative|..]); }
    } else {
      WalkEntryCollects(dir, entries[0], scope, relative, w, f);
      WalkEntriesCollect(dir, entries[1..], scope, relative, WalkEntry(dir, entries[0], scope, relative, w).value, f);
      if relative <= f { UnderFirst(entries, f[|relative|..]); }
    }
  }

  lemma NothingUnder(f: Path)
    ensures !UnderEntries([], f)
  {
  }

  lemma YamlNameEnds(name: string)
    ensures YamlName(name) <==> name != "secrets.yaml" && |name| >= 5 && name[|name| - 5..] == ".yaml"
  {
  }

  lemma {:induction false} WalkEntryCollects(dir: Fs, e: Entry, scope: Path, relative: Path, w: Walk, f: Path)
    requires dir.Dir? && e in dir.entries && WalkEntry(dir, e, scope, relative, w).Some?
    ensures f in WalkEntry(dir, e, scope, relative, w).value.inventory <==>
            f in w.inventory || (relative <= f && UnderEntry(e, f[|relative|..]))
    decreases dir, 0, 0
  {
    hide WalkDirectory, YamlName, Under;
    var hidden := e.name != "" && e.name[0] == '.';
    if !hidden && e.node.Dir? {
      WalkDirectoryCollects(e.node, scope, relative + [e.name], w.(entries := w.entries + 1), f);
      DeeperUnder(e, relative, f);
    } else if !hidden && e.node.File? {
      YamlNameEnds(e.name);
      assert relative <= f ==> (f[|relative|..] == [e.name] <==> f == relative + [e.name]);
    }
  }

  lemma DeeperUnder(e: Entry, relative: Path, f: Path)
    requires e.node.Dir? && !(e.name != "" && e.name[0] == '.')
    ensures (relative <= f && UnderEntry(e, f[|relative|..])) <==>
            (relative + [e.name] <= f && Under(e.node, f[|relative + [e.name]|..]))
  {
    hide YamlName;
    if relative <= f && |f| > |relative| {
      assert f[|relative|..][1..] == f[|relative| + 1..];
      assert f[|relative|..][0] == e.name <==> relative + [e.name] <= f;
      assert |f| == |relative| + 1 ==> !Under(e.node, f[|relative| + 1..]);
    }
  }

  /** A walk that ends has met no links and no devices. */
  lemma {:induction false} WalkIsPlain(dir: Fs, scope: Path, relative: Path, w: Walk)
    requires dir.Dir? && WalkDirectory(dir, scope, relative, w).Some?
    ensures PlainDirectory(dir)
    decreases dir, 1
  {
    WalkEntriesArePlain(dir, dir.entries, scope, relative, w.(directories := w.directories + 1));
  }

  lemma {:induction false} WalkEntriesArePlain(dir: Fs, entries: seq<Entry>, scope: Path, relative: Path, w: Walk)
    requires dir.Dir? && (forall e | e in entries :: e in dir.entries)
    requires WalkEntries(dir, entries, scope, relative, w).Some?
    ensures PlainEntries(dir, entries)
    decreases dir, 0, |entries|
  {
    hide WalkDirectory, YamlName, PlainDirectory;
    if entries != [] {
      var e := entries[0];
      assert e in dir.entries;
      if !Hidden(e) && e.node.Dir? {
        WalkIsPlain(e.node, scope, relative + [e.name], w.(entries := w.entries + 1));
      }
      WalkEntriesArePlain(dir, entries[1..], scope, relative, WalkEntry(dir, e, scope, relative, w).value);
    }
  }

  lemma WalkIsScope(fs: Fs, d: Path, w: Walk)
    requires OpenDirectory(fs, d).Found? && w.inventory == {}
    ensures
      var dir := OpenDirectory(fs, d).file;
      var walk := WalkDirectory(dir, d, [], w);
      walk.Some? ==> ScopeOf(fs, d, Scope(dir.info, walk.value.inventory))
  {
    hide OpenDirectory, WalkDirectory, Under, PlainDirectory;
    var dir := OpenDirectory(fs, d).file;
    var walk := WalkDirectory(dir, d, [], w);
    if walk.Some? {
      WalkIsPlain(dir, d, [], w);
      forall f ensures f in walk.value.inventory <==> Under(dir, f) {
        WalkDirectoryCollects(dir, d, [], w, f);
        assert f[0..] == f;
      }
    }
  }

  lemma NothingListed(directories: nat, entries: nat, scope: Path)
    ensures Listed(Walk(directories, entries, {}, []), scope)
  {
  }

  lemma ScopedKeeps(fs: Fs, s: Scan, t: Scan, w: Walk, d: Path, depth: nat, context: Context)
    requires s.loads <= MAX_LOADS && Closed(fs, s) && Listed(w, d) && t.loads == s.loads
    requires t == s.(directoriesSeen := t.directoriesSeen, entries := t.entries, directories := t.directories)
    requires d in t.directories && t.directories == s.directories[d := t.directories[d]]
    requires d in s.directories ==> s.directories[d] == t.directories[d]
    requires t.directories[d].inventory == w.inventory && ScopeOf(fs, d, t.directories[d])
    ensures
      var r := LoadAll(fs, t, w.files, depth, context);
      Kept(fs, s, r) && (r.outcome.Ok? ==> Settled(fs, r.scan, DirRef(d, context)))
    decreases MAX_LOADS + 1 - s.loads, 0, 2 + |w.files|
  {
    hide SourceOf, ScopeOf, DoneWell, LoadAll, ReadFile;
    assert Grown(s, t);
    StaysClosed(fs, s, t);
    LoadAllKeeps(fs, t, w.files, depth, context);
    KeptAfter(fs, s, t, LoadAll(fs, t, w.files, depth, context));
  }

  // ----- Nodes

  lemma {:induction false} VisitKeeps(fs: Fs, s: Scan, n: Node, current: Path, depth: nat, nodeDepth: nat, context: Context)
    requires s.loads <= MAX_LOADS && current != [] && Closed(fs, s)
    ensures
      var r := Visit(fs, s, n, current, depth, nodeDepth, context);
      Kept(fs, s, r) && (r.outcome.Ok? ==> AllSettled(fs, r.scan, Refs(n, current, context)))
    decreases MAX_LOADS + 1 - s.loads, 2 + Size(n), 1
  {
    hide Closed, Grown, AllSettled, VisitTag, VisitItems, VisitPairs, TagRefs, ItemRefs, PairRefs;
    if !(nodeDepth > MAX_NODE_DEPTH || s.nodes + 1 > MAX_NODES || n.tag.Unrecognized?) {
      var counted := s.(nodes := s.nodes + 1);
      SameFactsKept(fs, s, counted);
      if !n.tag.Yaml? {
        VisitTagKeeps(fs, counted, n, current, depth, context);
        KeptAfter(fs, s, counted, VisitTag(fs, counted, n, current, depth, context));
      } else {
        match n
        case Scalar(_, _) => NothingSettled(fs, counted);
        case Sequence(_, items) =>
          VisitItemsKeeps(fs, counted, items, current, depth, nodeDepth, context);
          KeptAfter(fs, s, counted, VisitItems(fs, counted, items, current, depth, nodeDepth, context));
        case Mapping(_, pairs) =>
          VisitPairsKeeps(fs, counted, pairs, {}, current, depth, nodeDepth, context);
          KeptAfter(fs, s, counted, VisitPairs(fs, counted, pairs, {}, current, depth, nodeDepth, context));
      }
    }
  }

  lemma OneSettled(fs: Fs, s: Scan, ref: Ref)
    requires Settled(fs, s, ref)
    ensures AllSettled(fs, s, {ref})
  {
    hide Settled;
  }

  lemma {:induction false} VisitTagKeeps(fs: Fs, s: Scan, n: Node, current: Path, depth: nat, context: Context)
    requires s.loads <= MAX_LOADS && current != [] && Closed(fs, s) && !n.tag.Yaml? && !n.tag.Unrecognized?
    ensures
      var r := VisitTag(fs, s, n, current, depth, context);
      Kept(fs, s, r) && (r.outcome.Ok? ==> AllSettled(fs, r.scan, TagRefs(n, current, context)))
    decreases MAX_LOADS + 1 - s.loads, 2 + Size(n), 0
  {
    hide Closed, Grown, AllSettled, Load, IncludeDirectory, SecretCandidates, SecretsSettled, Parts, GoodOperand, ReadFile, Kept;
    if n.Scalar? {
      var here := current[..|current| - 1];
      if n.tag.EnvVar? || n.tag.Input? {
        NothingKept(fs, s);
      } else if n.tag.Secret? {
        if GoodOperand(n.value) {
          SecretsKeep(fs, s, here, |here|, context);
          SecretTagSettled(fs, SecretCandidates(fs, s, here, |here|, context).scan, here, context);
        } else {
          DeniedKept(fs, s);
        }
      } else if GoodOperand(n.value) && Parts(n.value).Some? && s.includes + 1 <= MAX_INCLUDES {
        IncludeTagKeeps(fs, s, here + Parts(n.value).value, n.tag.Include?, depth, context);
      } else {
        DeniedKept(fs, s);
      }
    } else {
      DeniedKept(fs, s);
    }
  }

  lemma DeniedKept(fs: Fs, s: Scan)
    ensures Kept(fs, s, Progress(Denied, s))
  {
  }

  lemma NothingKept(fs: Fs, s: Scan)
    requires Closed(fs, s)
    ensures Kept(fs, s, Progress(Ok, s)) && AllSettled(fs, s, {})
  {
    hide Closed;
  }

  /** An include, of a file or of a directory. */
  lemma IncludeTagKeeps(fs: Fs, s: Scan, target: Path, single: bool, depth: nat, context: Context)
    requires s.loads <= MAX_LOADS && Closed(fs, s)
    ensures
      var counted := s.(includes := s.includes + 1);
      if single then
        var r := Load(fs, counted, target, depth + 1, context);
        Kept(fs, s, r) && (r.outcome.Ok? ==> AllSettled(fs, r.scan, {FileRef(target, context)}))
      else
        var r := IncludeDirectory(fs, counted, target, depth + 1, context);
        Kept(fs, s, r) && (r.outcome.Ok? ==> AllSettled(fs, r.scan, {DirRef(target, context)}))
    decreases MAX_LOADS + 1 - s.loads, 2, 0
  {
    hide Closed, Grown, AllSettled, Load, IncludeDirectory, ReadFile, Kept;
    var counted := s.(includes := s.includes + 1);
    SameFactsKept(fs, s, counted);
    if single {
      var r := Load(fs, counted, target, depth + 1, context);
      LoadKeeps(fs, counted, target, depth + 1, context);
      KeptAfter(fs, s, counted, r);
      if r.outcome.Ok? { OneSettled(fs, r.scan, FileRef(target, context)); }
    } else {
      var r := IncludeDirectory(fs, counted, target, depth + 1, context);
      IncludeDirectoryKeeps(fs, counted, target, depth + 1, context);
      KeptAfter(fs, s, counted, r);
      if r.outcome.Ok? { OneSettled(fs, r.scan, DirRef(target, context)); }
    }
  }

  lemma SecretTagSettled(fs: Fs, s: Scan, here: Path, context: Context)
    ensures SecretsSettled(fs, s, here, |here|, context) ==> AllSettled(fs, s, {SecretRef(here, context)})
  {
    hide SecretSettled;
    if SecretsSettled(fs, s, here, |here|, context) {
      OneSettled(fs, s, SecretRef(here, context));
    }
  }

  lemma BothSettled(fs: Fs, s: Scan, a: set<Ref>, b: set<Ref>)
    requires AllSettled(fs, s, a) && AllSettled(fs, s, b)
    ensures AllSettled(fs, s, a + b)
  {
    hide Settled;
  }

  lemma {:induction false} VisitItemsKeeps(fs: Fs, s: Scan, items: seq<Node>, current: Path, depth: nat, nodeDepth: nat, context: Context)
    requires s.loads <= MAX_LOADS && current != [] && Closed(fs, s)
    ensures
      var r := VisitItems(fs, s, items, current, depth, nodeDepth, context);
      Kept(fs, s, r) && (r.outcome.Ok? ==> AllSettled(fs, r.scan, ItemRefs(items, current, context)))
    decreases MAX_LOADS + 1 - s.loads, 2 + SizeAll(items), 2
  {
    hide Closed, Grown, AllSettled, Visit, Refs;
    SameFactsKept(fs, s, s);
    NothingSettled(fs, s);
    if items != [] {
      VisitKeeps(fs, s, items[0], current, depth, nodeDepth + 1, context);
      var first := Visit(fs, s, items[0], current, depth, nodeDepth + 1, context);
      if first.outcome.Ok? {
        var rest := VisitItems(fs, first.scan, items[1..], current, depth, nodeDepth, context);
        VisitItemsKeeps(fs, first.scan, items[1..], current, depth, nodeDepth, context);
        KeptAfter(fs, s, first.scan, rest);
        if rest.outcome.Ok? {
          StaysSettled(fs, first.scan, rest.scan, Refs(items[0], current, context));
          BothSettled(fs, rest.scan, Refs(items[0], current, context), ItemRefs(items[1..], current, context));
        }
      }
    }
  }

  lemma {:induction false} VisitPairsKeeps(fs: Fs, s: Scan, pairs: seq<Pair>, keys: set<(Tag, string)>, current: Path, depth: nat,
                                           nodeDepth: nat, context: Context)
    requires s.loads <= MAX_LOADS && current != [] && Closed(fs, s)
    ensures
      var r := VisitPairs(fs, s, pairs, keys, current, depth, nodeDepth, context);
      Kept(fs, s, r) && (r.outcome.Ok? ==> AllSettled(fs, r.scan, PairRefs(pairs, current, context)))
    decreases MAX_LOADS + 1 - s.loads, 2 + SizePairs(pairs), 2
  {
    hide Closed, Grown, AllSettled, Visit, Refs, ChildContext;
    SameFactsKept(fs, s, s);
    NothingSettled(fs, s);
    if pairs != [] {
      var key, value := pairs[0].key, pairs[0].value;
      var child := ChildContext(key, context);
      assert SizePairs(pairs) == SizePair(pairs[0]) + SizePairs(pairs[1..]) && SizePair(pairs[0]) == 1 + Size(key) + Size(value);
      VisitKeeps(fs, s, key, current, depth, nodeDepth + 1, context);
      var first := Visit(fs, s, key, current, depth, nodeDepth + 1, context);
      if first.outcome.Ok? {
        VisitKeeps(fs, first.scan, value, current, depth, nodeDepth + 1, child);
        var second := Visit(fs, first.scan, value, current, depth, nodeDepth + 1, child);
        KeptAfter(fs, s, first.scan, second);
        if second.outcome.Ok? {
          var seen := if key.Scalar? then keys + {(key.tag, key.value)} else keys;
          var rest := VisitPairs(fs, second.scan, pairs[1..], seen, current, depth, nodeDepth, context);
          VisitPairsKeeps(fs, second.scan, pairs[1..], seen, current, depth, nodeDepth, context);
          KeptAfter(fs, s, second.scan, rest);
          if rest.outcome.Ok? {
            GrownTwice(first.scan, second.scan, rest.scan);
            StaysSettled(fs, first.scan, rest.scan, Refs(key, current, context));
            StaysSettled(fs, second.scan, rest.scan, Refs(value, current, child));
            BothSettled(fs, rest.scan, Refs(key, current, context), Refs(value, current, child));
            BothSettled(fs, rest.scan, OnePairRefs(pairs[0], current, context), PairRefs(pairs[1..], current, context));
          }
        }
      }
    }
  }
}
