/**
 The same authority gives the same grants: what Home Assistant's loader makes of the configuration, and which
 part of it the scan's authority determines.

 The loader is modelled as far as the includes go. A secret stands for all the secrets files it may come from,
 an included directory for the values of its files.
 */
module GrantSafety {
  import opened Models
  import opened SourceGraph
  import opened ScanSafety
  import opened ScanTheorems

  datatype Value =
    | Null | Absent | Broken | TooDeep
    | Text(tag: Tag, text: string)
    | List(elements: seq<Value>)
    | Dict(items: seq<Item>)
    | Files(tag: Tag, values: map<Path, Value>)
    | SecretOf(name: string, candidates: seq<Value>)

  datatype Item = Item(key: Value, value: Value)

  // ----- Evaluation

  /** The files of an included directory, as paths below it. */
  function Listing(dir: Fs): set<Path> {
    if dir.Dir? then ListEntries(dir.entries) else {}
  }

  function ListEntries(entries: seq<Entry>): set<Path> {
    if entries == [] then {} else ListEntry(entries[0]) + ListEntries(entries[1..])
  }

  function ListEntry(e: Entry): set<Path> {
    if e.name != "" && e.name[0] == '.' then {}
    else if e.node.Dir? then set f | f in Listing(e.node) :: [e.name] + f
    else if e.node.File? && YamlName(e.name) then {[e.name]}
    else {}
  }

  /** The value of a file; fuel bounds how deep includes nest. */
  function EvalFile(fs: Fs, p: Path, fuel: nat): Value
    decreases fuel, 0
  {
    if fuel == 0 then TooDeep
    else if p == [] then Broken
    else match ReadFile(fs, p)
      case Gone => Absent
      case Refused => Broken
      case Found(file) => EvalContent(fs, file.content, p, fuel - 1)
  }

  function EvalContent(fs: Fs, content: Content, p: Path, fuel: nat): Value
    requires p != []
    decreases fuel, if content.Document? then 3 + Size(content.root) else 0
  {
    match content
    case Malformed(_) => Broken
    case Empty(_) => Null
    case Document(_, root) => Eval(fs, root, p, fuel)
  }

  function Eval(fs: Fs, n: Node, current: Path, fuel: nat): Value
    requires current != []
    decreases fuel, 2 + Size(n)
  {
    if !n.tag.Yaml? then EvalTag(fs, n, current, fuel)
    else match n
      case Scalar(tag, value) => Text(tag, value)
      case Sequence(_, items) => List(EvalItems(fs, items, current, fuel))
      case Mapping(_, pairs) => Dict(EvalPairs(fs, pairs, current, fuel))
  }

  function EvalTag(fs: Fs, n: Node, current: Path, fuel: nat): Value
    requires current != []
    decreases fuel, 1 + Size(n)
  {
    var here := current[..|current| - 1];
    if !n.Scalar? || n.tag.Unrecognized? then Broken
    else if n.tag.EnvVar? || n.tag.Input? then Text(n.tag, n.value)
    else if n.tag.Secret? then SecretOf(n.value, EvalSecrets(fs, here, |here|, fuel))
    else if Parts(n.value).None? then Broken
    else if n.tag.Include? then EvalFile(fs, here + Parts(n.value).value, fuel)
    else EvalDirectory(fs, n.tag, here + Parts(n.value).value, fuel)
  }

  function EvalDirectory(fs: Fs, tag: Tag, d: Path, fuel: nat): Value
    decreases fuel, 1, 0
  {
    match OpenDirectory(fs, d)
    case Found(dir) => Files(tag, map f | f in Listing(dir) :: EvalFile(fs, d + f, fuel))
    case _ => Broken
  }

  /** The secrets files from a directory up to the root. */
  function EvalSecrets(fs: Fs, parent: Path, index: nat, fuel: nat): seq<Value>
    requires index <= |parent|
    decreases fuel, 1, index
  {
    [EvalFile(fs, parent[..index] + ["secrets.yaml"], fuel)] + if index == 0 then [] else EvalSecrets(fs, parent, index - 1, fuel)
  }

  function EvalItems(fs: Fs, items: seq<Node>, current: Path, fuel: nat): seq<Value>
    requires current != []
    decreases fuel, 2 + SizeAll(items), 1
  {
    if items == [] then [] else [Eval(fs, items[0], current, fuel)] + EvalItems(fs, items[1..], current, fuel)
  }

  function EvalPairs(fs: Fs, pairs: seq<Pair>, current: Path, fuel: nat): seq<Item>
    requires current != []
    decreases fuel, 2 + SizePairs(pairs), 1
  {
    if pairs == [] then []
    else
      assert SizePairs(pairs) == SizePair(pairs[0]) + SizePairs(pairs[1..]);
      assert SizePair(pairs[0]) == 1 + Size(pairs[0].key) + Size(pairs[0].value);
      [Item(Eval(fs, pairs[0].key, current, fuel), Eval(fs, pairs[0].value, current, fuel))]
      + EvalPairs(fs, pairs[1..], current, fuel)
  }

  /** The configuration. */
  function Configuration(fs: Fs, fuel: nat): Value {
    EvalFile(fs, Root, fuel)
  }

  // ----- What the loader makes of a value

  /** The order in which the loader reads the files of a directory, and the environment it sees. */
  datatype Loader = Loader(order: set<Path> -> seq<Path>, environment: string -> Option<string>)

  /** Included directories are read by file names, or merged, into a mapping or a list. */
  predicate IsMapping(v: Value) {
    v.Dict? || (v.Files? && (v.tag.DirNamed? || v.tag.DirMergeNamed?))
  }

  function StrKey(name: string): Value {
    Text(Yaml("str"), name)
  }

  predicate IsMerge(key: Value) {
    key.Text? && key.tag == Yaml("merge")
  }

  /** The file name without its ending. */
  function Stem(f: Path): string {
    if f == [] || |f[|f| - 1]| < 5 then "" else f[|f| - 1][..|f[|f| - 1]| - 5]
  }

  /**
   The value of a key: written in the mapping, merged into it, or from the files of a directory, of which later
   ones override earlier ones.
   */
  function At(loader: Loader, v: Value, key: Value): Option<Value>
    decreases v, 0
  {
    if v.Dict? then Assoc(loader, v.items, key)
    else if IsMapping(v) then InFiles(loader, v, loader.order(v.values.Keys), key)
    else None
  }

  function Lookup(loader: Loader, v: Value, name: string): Option<Value> {
    At(loader, v, StrKey(name))
  }

  function InFiles(loader: Loader, v: Value, files: seq<Path>, key: Value): Option<Value>
    requires v.Files?
    decreases v, 0, |files|
  {
    if files == [] then None
    else
      var f, before := files[|files| - 1], files[..|files| - 1];
      if f !in v.values then InFiles(loader, v, before, key)
      else if v.tag.DirNamed? then if StrKey(Stem(f)) == key then Some(v.values[f]) else InFiles(loader, v, before, key)
      else
        var last := At(loader, v.values[f], key);
        if last.Some? then last else InFiles(loader, v, before, key)
  }

  function Assoc(loader: Loader, items: seq<Item>, key: Value): Option<Value>
    decreases items, 0
  {
    if items == [] then None
    else if items[0].key == key then Some(items[0].value)
    else if Assoc(loader, items[1..], key).Some? then Assoc(loader, items[1..], key)
    else Merged(loader, items[0], key)
  }

  function Merged(loader: Loader, item: Item, key: Value): Option<Value>
    decreases item, 0
  {
    if IsMerge(item.key) then At(loader, item.value, key) else None
  }

  /** What is under `homeassistant` that grants anything. */
  predicate SameSection(loader: Loader, v: Option<Value>, w: Option<Value>) {
    if v.None? || w.None? then v == w
    else IsMapping(v.value) == IsMapping(w.value) &&
         Lookup(loader, v.value, "allowlist_external_dirs") == Lookup(loader, w.value, "allowlist_external_dirs") &&
         Lookup(loader, v.value, "packages") == Lookup(loader, w.value, "packages")
  }

  /** The same grants: the `hapatchy` section, the allowed external directories and the packages. */
  predicate SameGrants(loader: Loader, v: Value, w: Value) {
    && IsMapping(v) == IsMapping(w) && Lookup(loader, v, "hapatchy") == Lookup(loader, w, "hapatchy")
    && SameSection(loader, Lookup(loader, v, "homeassistant"), Lookup(loader, w, "homeassistant"))
  }

  // ----- Documents the theorem speaks about

  /** Every mapping key is a plain string: in particular there is no merge key. */
  predicate PlainNode(n: Node) {
    match n
    case Scalar(_, _) => true
    case Sequence(_, items) => PlainItems(items)
    case Mapping(_, pairs) => PlainPairs(pairs)
  }

  predicate PlainItems(items: seq<Node>) {
    items != [] ==> PlainNode(items[0]) && PlainItems(items[1..])
  }

  predicate PlainPairs(pairs: seq<Pair>) {
    pairs != [] ==> PlainPair(pairs[0]) && PlainPairs(pairs[1..])
  }

  predicate PlainPair(pair: Pair) {
    pair.key.Scalar? && pair.key.tag == Yaml("str") && PlainNode(pair.value)
  }

  /** Neither a secret nor an included directory. */
  predicate Direct(n: Node) {
    n.tag.Yaml? || n.tag.Include? || n.tag.EnvVar? || n.tag.Input?
  }

  /** Under `homeassistant`: no merge key, and plain keys below the two entries that grant anything. */
  predicate SectionNode(n: Node) {
    Direct(n) && (n.Mapping? && n.tag.Yaml? ==> SectionPairs(n.pairs))
  }

  predicate SectionPairs(pairs: seq<Pair>) {
    pairs != [] ==> SectionPair(pairs[0]) && SectionPairs(pairs[1..])
  }

  predicate SectionPair(pair: Pair) {
    && pair.key.Scalar? && pair.key.tag.Yaml? && pair.key.tag != Yaml("merge")
    && (pair.key == Scalar(Yaml("str"), "allowlist_external_dirs") || pair.key == Scalar(Yaml("str"), "packages") ==> PlainNode(pair.value))
  }

  /** At the root: mappings may be merged in, and only the two sections are restricted. */
  predicate RootNode(n: Node) {
    Direct(n) && (n.Mapping? && n.tag.Yaml? ==> RootPairs(n.pairs))
  }

  predicate RootPairs(pairs: seq<Pair>) {
    pairs != [] ==> RootPair(pairs[0]) && RootPairs(pairs[1..])
  }

  predicate RootPair(pair: Pair) {
    && pair.key.Scalar? && pair.key.tag.Yaml?
    && (pair.key == Scalar(Yaml("str"), "hapatchy") ==> PlainNode(pair.value))
    && (pair.key == Scalar(Yaml("str"), "homeassistant") ==> SectionNode(pair.value))
    && (pair.key.tag == Yaml("merge") ==> !pair.value.Sequence? && RootNode(pair.value))
  }

  /** What a document loaded in a granting context must look like. */
  predicate PlainIn(context: Context, content: Content) {
    content.Document? ==>
      if context == [] then RootNode(content.root)
      else if context == ["homeassistant"] then SectionNode(content.root)
      else PlainNode(content.root)
  }

  /** What the theorem asks of the configuration a scan has seen, load by load. */
  predicate PlainGrants(s: Scan) {
    forall d | d in s.done && DefinesGrants(d.1) && d.0 in s.sources :: PlainIn(d.1, s.sources[d.0].content)
  }

  /** Two scanned trees of the same authority, with plain grant sources. */
  ghost predicate Twins(f: Fs, g: Fs, s: Scan, t: Scan) {
    && Closed(f, s) && Closed(g, t) && s.swallowed == {} && t.swallowed == {}
    && s.sources.Keys == t.sources.Keys && s.directories == t.directories
    && (forall p | p in s.grants && p in s.sources :: t.sources[p] == s.sources[p])
    && PlainGrants(s)
  }

  /** Contexts below which everything defines grants. */
  predicate Deep(context: Context) {
    && context != []
    && (context[0] == "hapatchy" ||
        (context[0] == "homeassistant" && |context| >= 2 && (context[1] == "allowlist_external_dirs" || context[1] == "packages")))
  }

  predicate InBoth(s: Scan, t: Scan, q: Path, context: Context) {
    (q, context) in s.done && (q, context) in t.done
  }

  ghost predicate SettledInBoth(f: Fs, g: Fs, s: Scan, t: Scan, refs: set<Ref>) {
    AllSettled(f, s, refs) && AllSettled(g, t, refs)
  }

  /** A file loaded in a granting context is the same file in both trees. */
  lemma SameFile(f: Fs, g: Fs, s: Scan, t: Scan, q: Path, context: Context)
    requires Twins(f, g, s, t) && DefinesGrants(context) && InBoth(s, t, q, context)
    ensures q != [] && ReadFile(f, q).Found? && ReadFile(g, q).Found?
    ensures ReadFile(f, q).file.content == ReadFile(g, q).file.content && PlainIn(context, ReadFile(f, q).file.content)
    ensures SettledInBoth(f, g, s, t, DocumentRefs(ReadFile(f, q).file.content, q, context))
  {
    hide ReadFile, AllSettled, DocumentRefs, PlainIn, ScopeOf, DefinesGrants;
    assert DoneWell(f, s, q, context) && DoneWell(g, t, q, context);
    assert SourceOf(f, q, s.sources[q]) && SourceOf(g, q, t.sources[q]);
  }

  lemma {:induction false} DeepFile(f: Fs, g: Fs, s: Scan, t: Scan, q: Path, context: Context, fuel: nat)
    requires Twins(f, g, s, t) && Deep(context) && InBoth(s, t, q, context)
    ensures EvalFile(f, q, fuel) == EvalFile(g, q, fuel)
    decreases fuel, 0, 0
  {
    hide ReadFile, Twins, DocumentRefs, PlainNode, RootNode, SectionNode, SettledInBoth;
    if fuel > 0 {
      SameFile(f, g, s, t, q, context);
      var content := ReadFile(f, q).file.content;
      if content.Document? {
        assert DocumentRefs(content, q, context) == Refs(content.root, q, context) by { RefsOfRoot(content, q, context); }
        DeepNode(f, g, s, t, content.root, q, context, fuel - 1);
      }
    }
  }

  lemma RefsOfRoot(content: Content, q: Path, context: Context)
    requires content.Document? && q != []
    ensures DocumentRefs(content, q, context) == Refs(content.root, q, context)
  {
  }

  lemma {:induction false} DeepNode(f: Fs, g: Fs, s: Scan, t: Scan, n: Node, current: Path, context: Context, fuel: nat)
    requires Twins(f, g, s, t) && Deep(context) && current != [] && PlainNode(n)
    requires SettledInBoth(f, g, s, t, Refs(n, current, context))
    ensures Eval(f, n, current, fuel) == Eval(g, n, current, fuel)
    decreases fuel, 2 + Size(n)
  {
    hide Twins, EvalTag, EvalItems, EvalPairs, TagRefs, ItemRefs, PairRefs, SettledInBoth;
    if !n.tag.Yaml? {
      DeepTag(f, g, s, t, n, current, context, fuel);
    } else {
      match n
      case Scalar(_, _) =>
      case Sequence(_, items) => DeepItems(f, g, s, t, items, current, context, fuel);
      case Mapping(_, pairs) => DeepPairs(f, g, s, t, pairs, current, context, fuel);
    }
  }

  lemma OneInBoth(f: Fs, g: Fs, s: Scan, t: Scan, ref: Ref)
    requires SettledInBoth(f, g, s, t, {ref})
    ensures Settled(f, s, ref) && Settled(g, t, ref)
  {
    hide Settled;
  }

  lemma {:induction false} DeepTag(f: Fs, g: Fs, s: Scan, t: Scan, n: Node, current: Path, context: Context, fuel: nat)
    requires Twins(f, g, s, t) && Deep(context) && current != [] && !n.tag.Yaml?
    requires SettledInBoth(f, g, s, t, TagRefs(n, current, context))
    ensures EvalTag(f, n, current, fuel) == EvalTag(g, n, current, fuel)
    decreases fuel, 1 + Size(n)
  {
    hide Twins, EvalFile, EvalDirectory, EvalSecrets, SettledInBoth, Parts, Settled;
    var here := current[..|current| - 1];
    if !n.Scalar? || n.tag.Unrecognized? || n.tag.EnvVar? || n.tag.Input? {
    } else if n.tag.Secret? {
      OneInBoth(f, g, s, t, SecretRef(here, context));
      DeepSecrets(f, g, s, t, here, |here|, context, fuel);
    } else if Parts(n.value).Some? {
      var target := here + Parts(n.value).value;
      if n.tag.Include? {
        OneInBoth(f, g, s, t, FileRef(target, context));
        SettledFile(f, g, s, t, target, context);
        DeepFile(f, g, s, t, target, context, fuel);
      } else {
        OneInBoth(f, g, s, t, DirRef(target, context));
        DeepDirectory(f, g, s, t, n.tag, target, context, fuel);
      }
    }
  }

  lemma SettledFile(f: Fs, g: Fs, s: Scan, t: Scan, q: Path, context: Context)
    requires Settled(f, s, FileRef(q, context)) && Settled(g, t, FileRef(q, context))
    ensures InBoth(s, t, q, context)
  {
  }

  // ----- Directories

  lemma {:induction false} ListingIsUnder(dir: Fs, f: Path)
    ensures f in Listing(dir) <==> Under(dir, f)
    decreases dir, 1
  {
    if dir.Dir? {
      EntriesAreUnder(dir, dir.entries, f);
      UnderIsEntries(dir, f);
    }
  }

  lemma {:induction false} EntriesAreUnder(dir: Fs, entries: seq<Entry>, f: Path)
    requires dir.Dir? && forall e | e in entries :: e in dir.entries
    ensures f in ListEntries(entries) <==> UnderEntries(entries, f)
    decreases dir, 0, |entries|
  {
    hide UnderEntry, ListEntry, UnderEntries;
    if entries == [] {
      NothingUnder(f);
    } else {
      EntryIsUnder(dir, entries[0], f);
      EntriesAreUnder(dir, entries[1..], f);
      UnderFirst(entries, f);
    }
  }

  lemma {:induction false} EntryIsUnder(dir: Fs, e: Entry, f: Path)
    requires dir.Dir? && e in dir.entries
    ensures f in ListEntry(e) <==> UnderEntry(e, f)
    decreases dir, 0, 0
  {
    hide Under, Listing, YamlName;
    if e.node.Dir? && f != [] {
      ListingIsUnder(e.node, f[1..]);
      if f in ListEntry(e) {
        var h :| h in Listing(e.node) && f == [e.name] + h;
        assert f[1..] == h;
        EmptyIsNotUnder(e.node, h);
      } else if f[0] == e.name {
        assert f == [e.name] + f[1..];
        EmptyIsNotUnder(e.node, f[1..]);
      }
    } else if e.node.File? && f != [] {
      YamlNameEnds(e.name);
      assert f == [e.name] <==> |f| == 1 && f[0] == e.name;
    }
  }

  lemma EmptyIsNotUnder(dir: Fs, f: Path)
    ensures Under(dir, f) ==> f != []
  {
  }

  lemma ScopeIsListing(fs: Fs, d: Path, scope: Scope)
    requires ScopeOf(fs, d, scope)
    ensures OpenDirectory(fs, d).Found? && Listing(OpenDirectory(fs, d).file) == scope.inventory
  {
    hide OpenDirectory, Under, Listing;
    var dir := OpenDirectory(fs, d).file;
    forall f ensures f in Listing(dir) <==> f in scope.inventory {
      ListingIsUnder(dir, f);
    }
  }

  lemma SameListing(f: Fs, g: Fs, s: Scan, t: Scan, d: Path)
    requires Twins(f, g, s, t) && d in s.directories
    ensures OpenDirectory(f, d).Found? && OpenDirectory(g, d).Found?
    ensures Listing(OpenDirectory(f, d).file) == Listing(OpenDirectory(g, d).file) == s.directories[d].inventory
  {
    hide DoneWell, SourceOf, ScopeOf, PlainIn, OpenDirectory, Listing;
    ScopeIsListing(f, d, s.directories[d]);
    ScopeIsListing(g, d, t.directories[d]);
  }

  lemma {:induction false} DeepFiles(f: Fs, g: Fs, s: Scan, t: Scan, d: Path, inventory: set<Path>, context: Context, fuel: nat)
    requires Twins(f, g, s, t) && Deep(context)
    requires FilesSettled(s, d, inventory, context) && FilesSettled(t, d, inventory, context)
    ensures forall h | h in inventory :: EvalFile(f, d + h, fuel) == EvalFile(g, d + h, fuel)
    decreases fuel, 0, 1
  {
    hide Twins, EvalFile, Deep;
    forall h | h in inventory ensures EvalFile(f, d + h, fuel) == EvalFile(g, d + h, fuel) {
      assert InBoth(s, t, d + h, context);
      DeepFile(f, g, s, t, d + h, context, fuel);
    }
  }

  lemma SettledDirectory(f: Fs, g: Fs, s: Scan, t: Scan, d: Path, context: Context)
    requires Twins(f, g, s, t) && Settled(f, s, DirRef(d, context)) && Settled(g, t, DirRef(d, context))
    ensures d in s.directories && FilesSettled(s, d, s.directories[d].inventory, context)
    ensures FilesSettled(t, d, s.directories[d].inventory, context)
  {
    hide Closed, PlainIn, FilesSettled;
  }

  lemma {:induction false} DeepDirectory(f: Fs, g: Fs, s: Scan, t: Scan, tag: Tag, d: Path, context: Context, fuel: nat)
    requires Twins(f, g, s, t) && Deep(context)
    requires Settled(f, s, DirRef(d, context)) && Settled(g, t, DirRef(d, context))
    ensures EvalDirectory(f, tag, d, fuel) == EvalDirectory(g, tag, d, fuel)
    decreases fuel, 1, 0
  {
    hide Listing, OpenDirectory, EvalFile, Deep, Twins, Settled, FilesSettled;
    SettledDirectory(f, g, s, t, d, context);
    SameListing(f, g, s, t, d);
    DeepFiles(f, g, s, t, d, s.directories[d].inventory, context, fuel);
  }

  // ----- Secrets

  /** A candidate that is there in one tree is there in the other. */
  lemma SameCandidate(f: Fs, g: Fs, s: Scan, t: Scan, q: Path, context: Context)
    requires Twins(f, g, s, t) && q != [] && SecretSettled(f, s, q, context) && SecretSettled(g, t, q, context)
    ensures InBoth(s, t, q, context) || (ReadFile(f, q).Gone? && ReadFile(g, q).Gone?)
  {
    hide ReadFile, AllSettled, ScopeOf, PlainIn;
    if (q, context) in s.done {
      assert DoneWell(f, s, q, context);
      assert SourceOf(g, q, t.sources[q]);
    }
    if (q, context) in t.done {
      assert DoneWell(g, t, q, context);
      assert SourceOf(f, q, s.sources[q]);
    }
  }

  lemma {:induction false} DeepSecrets(f: Fs, g: Fs, s: Scan, t: Scan, parent: Path, index: nat, context: Context, fuel: nat)
    requires Twins(f, g, s, t) && Deep(context) && index <= |parent|
    requires Settled(f, s, SecretRef(parent, context)) && Settled(g, t, SecretRef(parent, context))
    ensures EvalSecrets(f, parent, index, fuel) == EvalSecrets(g, parent, index, fuel)
    decreases fuel, 1, index
  {
    hide Twins, SecretSettled, ReadFile;
    var q := parent[..index] + ["secrets.yaml"];
    SameCandidate(f, g, s, t, q, context);
    if InBoth(s, t, q, context) {
      DeepFile(f, g, s, t, q, context, fuel);
    }
    if index > 0 {
      DeepSecrets(f, g, s, t, parent, index - 1, context, fuel);
    }
  }

  // ----- Sequences and mappings

  lemma PartsInBoth(f: Fs, g: Fs, s: Scan, t: Scan, a: set<Ref>, b: set<Ref>)
    requires SettledInBoth(f, g, s, t, a + b)
    ensures SettledInBoth(f, g, s, t, a) && SettledInBoth(f, g, s, t, b)
  {
    hide Settled;
  }

  lemma {:induction false} DeepItems(f: Fs, g: Fs, s: Scan, t: Scan, items: seq<Node>, current: Path, context: Context, fuel: nat)
    requires Twins(f, g, s, t) && Deep(context) && current != [] && PlainItems(items)
    requires SettledInBoth(f, g, s, t, ItemRefs(items, current, context))
    ensures EvalItems(f, items, current, fuel) == EvalItems(g, items, current, fuel)
    decreases fuel, 2 + SizeAll(items), 1
  {
    hide Twins, Eval, Refs, SettledInBoth, PlainNode;
    if items != [] {
      PartsInBoth(f, g, s, t, Refs(items[0], current, context), ItemRefs(items[1..], current, context));
      DeepNode(f, g, s, t, items[0], current, context, fuel);
      DeepItems(f, g, s, t, items[1..], current, context, fuel);
    }
  }

  lemma {:induction false} DeepPairs(f: Fs, g: Fs, s: Scan, t: Scan, pairs: seq<Pair>, current: Path, context: Context, fuel: nat)
    requires Twins(f, g, s, t) && Deep(context) && current != [] && PlainPairs(pairs)
    requires SettledInBoth(f, g, s, t, PairRefs(pairs, current, context))
    ensures EvalPairs(f, pairs, current, fuel) == EvalPairs(g, pairs, current, fuel)
    decreases fuel, 2 + SizePairs(pairs), 1
  {
    hide Twins, Refs, SettledInBoth, PlainNode;
    if pairs != [] {
      var key, value := pairs[0].key, pairs[0].value;
      var child := context + [key.value];
      assert SizePairs(pairs) == SizePair(pairs[0]) + SizePairs(pairs[1..]) && SizePair(pairs[0]) == 1 + Size(key) + Size(value);
      PartsInBoth(f, g, s, t, OnePairRefs(pairs[0], current, context), PairRefs(pairs[1..], current, context));
      PartsInBoth(f, g, s, t, Refs(key, current, context), Refs(value, current, child));
      assert child[0] == context[0] && (|context| >= 2 ==> child[1] == context[1]);
      DeepNode(f, g, s, t, value, current, child, fuel);
      DeepPairs(f, g, s, t, pairs[1..], current, context, fuel);
    }
  }

  // ----- The top of the configuration

  predicate Shallow(context: Context) {
    context == [] || context == ["homeassistant"]
  }

  /** The part of a value that matters in a shallow context. */
  predicate Agree(loader: Loader, context: Context, v: Value, w: Value) {
    if context == [] then SameGrants(loader, v, w) else SameSection(loader, Some(v), Some(w))
  }

  lemma {:induction false} TopFile(loader: Loader, f: Fs, g: Fs, s: Scan, t: Scan, q: Path, context: Context, fuel: nat)
    requires Twins(f, g, s, t) && Shallow(context) && InBoth(s, t, q, context)
    ensures Agree(loader, context, EvalFile(f, q, fuel), EvalFile(g, q, fuel))
    decreases fuel, 0, 0
  {
    hide ReadFile, Twins, DocumentRefs, RootNode, SectionNode, SettledInBoth, Eval, Lookup;
    if fuel > 0 {
      assert DefinesGrants(context);
      SameFile(f, g, s, t, q, context);
      var content := ReadFile(f, q).file.content;
      if content.Document? {
        RefsOfRoot(content, q, context);
        TopNode(loader, f, g, s, t, content.root, q, context, fuel - 1);
      }
    }
  }

  lemma NoLookup(loader: Loader, v: Value, w: Value, context: Context)
    requires !v.Dict? && !w.Dict? && !v.Files? && !w.Files?
    ensures Agree(loader, context, v, w)
  {
  }

  lemma {:induction false} TopNode(loader: Loader, f: Fs, g: Fs, s: Scan, t: Scan, n: Node, current: Path, context: Context, fuel: nat)
    requires Twins(f, g, s, t) && Shallow(context) && current != []
    requires if context == [] then RootNode(n) else SectionNode(n)
    requires SettledInBoth(f, g, s, t, Refs(n, current, context))
    ensures Agree(loader, context, Eval(f, n, current, fuel), Eval(g, n, current, fuel))
    decreases fuel, 2 + Size(n), 2
  {
    hide Twins, TagRefs, ItemRefs, PairRefs, SettledInBoth, Agree, RootPairs, SectionPairs, EvalItems, EvalPairs, EvalTag;
    if !n.tag.Yaml? {
      TopTag(loader, f, g, s, t, n, current, context, fuel);
    } else if n.Mapping? {
      TopMapping(loader, f, g, s, t, n.pairs, current, context, fuel);
    } else {
      NoLookup(loader, Eval(f, n, current, fuel), Eval(g, n, current, fuel), context);
    }
  }

  lemma TopTag(loader: Loader, f: Fs, g: Fs, s: Scan, t: Scan, n: Node, current: Path, context: Context, fuel: nat)
    requires Twins(f, g, s, t) && Shallow(context) && current != [] && !n.tag.Yaml? && Direct(n)
    requires SettledInBoth(f, g, s, t, TagRefs(n, current, context))
    ensures Agree(loader, context, EvalTag(f, n, current, fuel), EvalTag(g, n, current, fuel))
    decreases fuel, 1 + Size(n), 2
  {
    hide Twins, EvalFile, SettledInBoth, Parts, Settled, Agree;
    if n.Scalar? && n.tag.Include? && Parts(n.value).Some? {
      var target := current[..|current| - 1] + Parts(n.value).value;
      OneInBoth(f, g, s, t, FileRef(target, context));
      SettledFile(f, g, s, t, target, context);
      TopFile(loader, f, g, s, t, target, context, fuel);
    } else {
      NoLookup(loader, EvalTag(f, n, current, fuel), EvalTag(g, n, current, fuel), context);
    }
  }

  lemma TopMapping(loader: Loader, f: Fs, g: Fs, s: Scan, t: Scan, pairs: seq<Pair>, current: Path, context: Context, fuel: nat)
    requires Twins(f, g, s, t) && Shallow(context) && current != []
    requires if context == [] then RootPairs(pairs) else SectionPairs(pairs)
    requires SettledInBoth(f, g, s, t, PairRefs(pairs, current, context))
    ensures Agree(loader, context, Dict(EvalPairs(f, pairs, current, fuel)), Dict(EvalPairs(g, pairs, current, fuel)))
    decreases fuel, 2 + SizePairs(pairs), 2
  {
    hide Twins, PairRefs, SettledInBoth, RootPairs, SectionPairs, EvalPairs, Assoc;
    if context == [] {
      RootKeys(loader, f, g, s, t, pairs, current, fuel);
    } else {
      SectionKey(loader, f, g, s, t, pairs, current, "allowlist_external_dirs", fuel);
      SectionKey(loader, f, g, s, t, pairs, current, "packages", fuel);
    }
  }

  /** Looking up a key in a first entry, or in the rest, or in what the first merges in. */
  lemma AssocFirst(loader: Loader, first: Item, rest: seq<Item>, key: Value)
    ensures Assoc(loader, [first] + rest, key) ==
            if first.key == key then Some(first.value)
            else if Assoc(loader, rest, key).Some? then Assoc(loader, rest, key)
            else Merged(loader, first, key)
  {
    hide At;
    assert ([first] + rest)[1..] == rest;
  }

  lemma FirstItem(fs: Fs, pairs: seq<Pair>, current: Path, fuel: nat)
    requires current != [] && pairs != [] && pairs[0].key.Scalar? && pairs[0].key.tag.Yaml?
    ensures
      var first := Item(Text(pairs[0].key.tag, pairs[0].key.value), Eval(fs, pairs[0].value, current, fuel));
      EvalPairs(fs, pairs, current, fuel) == [first] + EvalPairs(fs, pairs[1..], current, fuel)
  {
    assert Eval(fs, pairs[0].key, current, fuel) == Text(pairs[0].key.tag, pairs[0].key.value);
  }

  /** The same for the pairs of a document. */
  lemma AssocStep(loader: Loader, fs: Fs, pairs: seq<Pair>, current: Path, key: string, fuel: nat)
    requires current != [] && pairs != [] && pairs[0].key.Scalar? && pairs[0].key.tag.Yaml?
    ensures
      var value, rest := Eval(fs, pairs[0].value, current, fuel), Assoc(loader, EvalPairs(fs, pairs[1..], current, fuel), StrKey(key));
      Assoc(loader, EvalPairs(fs, pairs, current, fuel), StrKey(key)) ==
      if pairs[0].key == Scalar(Yaml("str"), key) then Some(value)
      else if rest.Some? then rest
      else if pairs[0].key.tag == Yaml("merge") then Lookup(loader, value, key) else None
  {
    hide At, Assoc, Eval, EvalPairs;
    FirstItem(fs, pairs, current, fuel);
    var first := Item(Text(pairs[0].key.tag, pairs[0].key.value), Eval(fs, pairs[0].value, current, fuel));
    AssocFirst(loader, first, EvalPairs(fs, pairs[1..], current, fuel), StrKey(key));
  }

  lemma PairSettled(f: Fs, g: Fs, s: Scan, t: Scan, pairs: seq<Pair>, current: Path, context: Context)
    requires pairs != [] && current != []
    requires SettledInBoth(f, g, s, t, PairRefs(pairs, current, context))
    ensures SettledInBoth(f, g, s, t, PairRefs(pairs[1..], current, context))
    ensures SettledInBoth(f, g, s, t, Refs(pairs[0].value, current, ChildContext(pairs[0].key, context)))
  {
    hide Refs, SettledInBoth, ChildContext;
    var key, value := pairs[0].key, pairs[0].value;
    PartsInBoth(f, g, s, t, OnePairRefs(pairs[0], current, context), PairRefs(pairs[1..], current, context));
    PartsInBoth(f, g, s, t, Refs(key, current, context), Refs(value, current, ChildContext(key, context)));
  }

  /** One of the two entries of `homeassistant` that grant anything. */
  lemma {:induction false} SectionKey(loader: Loader, f: Fs, g: Fs, s: Scan, t: Scan, pairs: seq<Pair>, current: Path, key: string, fuel: nat)
    requires Twins(f, g, s, t) && current != [] && SectionPairs(pairs)
    requires key == "allowlist_external_dirs" || key == "packages"
    requires SettledInBoth(f, g, s, t, PairRefs(pairs, current, ["homeassistant"]))
    ensures Assoc(loader, EvalPairs(f, pairs, current, fuel), StrKey(key)) == Assoc(loader, EvalPairs(g, pairs, current, fuel), StrKey(key))
    decreases fuel, 2 + SizePairs(pairs), 1
  {
    hide Twins, SettledInBoth, Eval, Assoc, PairRefs, PlainNode;
    if pairs != [] {
      SmallerPairs(pairs);
      PairSettled(f, g, s, t, pairs, current, ["homeassistant"]);
      AssocStep(loader, f, pairs, current, key, fuel);
      AssocStep(loader, g, pairs, current, key, fuel);
      SectionKey(loader, f, g, s, t, pairs[1..], current, key, fuel);
      if pairs[0].key == Scalar(Yaml("str"), key) {
        assert ["homeassistant"] + [key] == ["homeassistant", key];
        DeepNode(f, g, s, t, pairs[0].value, current, ["homeassistant", key], fuel);
      }
    }
  }

  lemma SmallerPairs(pairs: seq<Pair>)
    requires pairs != []
    ensures SizePairs(pairs) == 1 + Size(pairs[0].key) + Size(pairs[0].value) + SizePairs(pairs[1..])
  {
    assert SizePairs(pairs) == SizePair(pairs[0]) + SizePairs(pairs[1..]);
  }

  /** Both sections at the root, whether written there or merged in. */
  lemma {:induction false} RootKeys(loader: Loader, f: Fs, g: Fs, s: Scan, t: Scan, pairs: seq<Pair>, current: Path, fuel: nat)
    requires Twins(f, g, s, t) && current != [] && RootPairs(pairs)
    requires SettledInBoth(f, g, s, t, PairRefs(pairs, current, []))
    ensures SameGrants(loader, Dict(EvalPairs(f, pairs, current, fuel)), Dict(EvalPairs(g, pairs, current, fuel)))
    decreases fuel, 2 + SizePairs(pairs), 1
  {
    hide Twins, SettledInBoth, Eval, Assoc, PairRefs, PlainNode, RootNode, SectionNode, SameSection;
    if pairs == [] {
      assert EvalPairs(f, pairs, current, fuel) == EvalPairs(g, pairs, current, fuel) == [];
      SameAsItself(loader, Assoc(loader, [], StrKey("homeassistant")));
    } else {
      SmallerPairs(pairs);
      PairSettled(f, g, s, t, pairs, current, []);
      RootKeys(loader, f, g, s, t, pairs[1..], current, fuel);
      FirstRootKey(loader, f, g, s, t, pairs[0], current, fuel);
      AssocStep(loader, f, pairs, current, "hapatchy", fuel);
      AssocStep(loader, g, pairs, current, "hapatchy", fuel);
      AssocStep(loader, f, pairs, current, "homeassistant", fuel);
      AssocStep(loader, g, pairs, current, "homeassistant", fuel);
      SameSectionNone(loader, Assoc(loader, EvalPairs(f, pairs[1..], current, fuel), StrKey("homeassistant")),
                      Assoc(loader, EvalPairs(g, pairs[1..], current, fuel), StrKey("homeassistant")));
      SameAsItself(loader, None);
    }
  }

  /** The value under one key of the root. */
  lemma FirstRootKey(loader: Loader, f: Fs, g: Fs, s: Scan, t: Scan, pair: Pair, current: Path, fuel: nat)
    requires Twins(f, g, s, t) && current != [] && RootPair(pair)
    requires SettledInBoth(f, g, s, t, Refs(pair.value, current, ChildContext(pair.key, [])))
    ensures
      var v, w := Eval(f, pair.value, current, fuel), Eval(g, pair.value, current, fuel);
      && (pair.key == Scalar(Yaml("str"), "hapatchy") ==> v == w)
      && (pair.key == Scalar(Yaml("str"), "homeassistant") ==> SameSection(loader, Some(v), Some(w)))
      && (pair.key.tag == Yaml("merge") ==> SameGrants(loader, v, w))
    decreases fuel, 2 + Size(pair.value), 3
  {
    hide Twins, SettledInBoth, Eval, Refs, PlainNode, RootNode, SectionNode, SameSection, SameGrants;
    if pair.key == Scalar(Yaml("str"), "hapatchy") {
      assert [] + ["hapatchy"] == ["hapatchy"];
      DeepNode(f, g, s, t, pair.value, current, ["hapatchy"], fuel);
    } else if pair.key == Scalar(Yaml("str"), "homeassistant") {
      assert [] + ["homeassistant"] == ["homeassistant"];
      TopNode(loader, f, g, s, t, pair.value, current, ["homeassistant"], fuel);
    } else if pair.key.tag == Yaml("merge") {
      TopNode(loader, f, g, s, t, pair.value, current, [], fuel);
    }
  }

  lemma SameSectionNone(loader: Loader, v: Option<Value>, w: Option<Value>)
    requires SameSection(loader, v, w)
    ensures v.None? <==> w.None?
  {
  }

  lemma SameAsItself(loader: Loader, v: Option<Value>)
    ensures SameSection(loader, v, v)
  {
  }

  // ----- The theorem

  /**
   The same authority, the same grants: whatever else was edited between two complete scans, the `hapatchy`
   section, the allowed external directories and the packages are what they were.
   */
  lemma AuthorityFixesGrants(loader: Loader, boot: Fs, now: Fs, fuel: nat)
    requires Scanned(boot).outcome.Ok? && Scanned(now).outcome.Ok?
    requires Scanned(boot).scan.swallowed == {} && Scanned(now).scan.swallowed == {}
    requires GraphOf(Scanned(now).scan).SameAuthorityAs(GraphOf(Scanned(boot).scan)) && PlainGrants(Scanned(boot).scan)
    ensures SameGrants(loader, Configuration(boot, fuel), Configuration(now, fuel))
  {
    hide Scanned, EvalFile, PlainIn, Closed, SameGrants;
    var s, t := Scanned(boot).scan, Scanned(now).scan;
    ScanIsClosed(boot);
    ScanIsClosed(now);
    assert Twins(boot, now, s, t);
    TopFile(loader, boot, now, s, t, Root, [], fuel);
  }
}
