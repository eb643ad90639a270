/**
 The bounded walk over Home Assistant's YAML sources: which files are read, and which can define grants.

 Documents are composed node trees with their tags; a file's content stands for its own hash. The tree of
 files does not change during one scan.
 */
module SourceGraph {
  import opened Models
  import opened PatchParser

  type Path = seq<string>

  /** The mapping keys above a node. */
  type Context = seq<string>

  datatype Tag =
    | Yaml(name: string)
    | Include | DirNamed | DirMergeNamed | DirList | DirMergeList
    | Secret | EnvVar | Input
    | Unrecognized

  datatype Node =
    | Scalar(tag: Tag, value: string)
    | Sequence(tag: Tag, items: seq<Node>)
    | Mapping(tag: Tag, pairs: seq<Pair>)

  datatype Pair = Pair(key: Node, value: Node)

  /** What parsing a file gives, after so many parse events. */
  datatype Content = Malformed(events: nat) | Empty(events: nat) | Document(events: nat, root: Node)

  datatype Fs =
    | Dir(info: nat, entries: seq<Entry>)
    | File(info: nat, single: bool, size: nat, content: Content)
    | Special

  datatype Entry = Entry(name: string, node: Fs)

  const MAX_FILES: nat := 256
  const MAX_INCLUDES: nat := 512
  const MAX_LOADS: nat := 512
  const MAX_DEPTH: nat := 16
  const MAX_DIRECTORIES: nat := 256
  const MAX_ENTRIES: nat := 4096
  const MAX_FILE_BYTES: nat := 512 * 1024
  const MAX_BYTES: nat := 8 * 1024 * 1024
  const MAX_EVENTS: nat := 65536
  const MAX_NODES: nat := 65536
  const MAX_NODE_DEPTH: nat := 64
  const MAX_OPERAND: nat := 1024

  // ----- The graph

  /** A file as it was read. */
  datatype Source = Source(info: nat, content: Content)

  datatype Scope = Scope(info: nat, inventory: set<Path>)

  datatype Graph = Graph(sources: map<Path, Source>, directories: map<Path, Scope>, secrets: set<Path>, grants: set<Path>)
  {
    predicate SameAuthorityAs(previous: Graph) {
      && sources.Keys == previous.sources.Keys && directories == previous.directories
      && secrets == previous.secrets && grants == previous.grants
      && forall p | p in sources && p in grants :: p in previous.sources && sources[p] == previous.sources[p]
    }

    predicate ProtectsPath(path: Path) {
      path in sources || path in secrets || exists d | d in directories :: d <= path
    }

    predicate Protects(path: string) {
      Parts(path).Some? && ProtectsPath(Parts(path).value)
    }
  }

  /** A relative path taken apart. */
  function Parts(path: string): Option<Path> {
    if path == "" || path[0] == '/' || exists c | c in path :: c == '\\' || c < ' ' then None
    else
      var parts := Split(path, '/');
      if exists part | part in parts :: part == "" || part == "." || part == ".." then None else Some(parts)
  }

  /** The branches of the configuration that grants are read from. */
  predicate DefinesGrants(context: Context) {
    || context == []
    || context[0] == "hapatchy"
    || (context[0] == "homeassistant" && (|context| == 1 || context[1] == "allowlist_external_dirs" || context[1] == "packages"))
  }

  // ----- Reading files

  function Find(entries: seq<Entry>, name: string): Option<Fs> {
    if entries == [] then None
    else if entries[0].name == name then Some(entries[0].node)
    else Find(entries[1..], name)
  }

  /** Open the directories of a path one by one. */
  function Descend(fs: Fs, parts: Path): (r: Option<Fs>)
    ensures r.Some? ==> r.value.Dir?
    decreases |parts|
  {
    if !fs.Dir? then None
    else if parts == [] then Some(fs)
    else
      var child := Find(fs.entries, parts[0]);
      if child.None? then None else Descend(child.value, parts[1..])
  }

  datatype Read = Found(file: Fs) | Gone | Refused

  /** The named file: absent itself is not the same as any other trouble on the way to it. */
  function ReadFile(fs: Fs, parts: Path): (r: Read)
    ensures r.Found? ==> r.file.File? && parts != []
  {
    if parts == [] then Refused
    else
      var parent := Descend(fs, parts[..|parts| - 1]);
      if parent.None? then Refused
      else
        var file := Find(parent.value.entries, parts[|parts| - 1]);
        if file.None? then Gone
        else if !file.value.File? || !file.value.single || file.value.size > MAX_FILE_BYTES then Refused
        else Found(file.value)
  }

  function OpenDirectory(fs: Fs, parts: Path): (r: Read)
    ensures r.Found? ==> r.file.Dir?
  {
    if parts == [] then Refused
    else
      var parent := Descend(fs, parts[..|parts| - 1]);
      if parent.None? then Refused
      else
        var dir := Find(parent.value.entries, parts[|parts| - 1]);
        if dir.None? then Gone else if !dir.value.Dir? then Refused else Found(dir.value)
  }

  // ----- Walking an included directory

  datatype Walk = Walk(directories: nat, entries: nat, inventory: set<Path>, files: seq<Path>)

  predicate YamlName(name: string) {
    name != "secrets.yaml" && |name| >= 5 && name[|name| - 5..] == ".yaml"
  }

  function WalkDirectory(dir: Fs, scope: Path, relative: Path, w: Walk): Option<Walk>
    requires dir.Dir?
    decreases dir, 1
  {
    if w.directories + 1 > MAX_DIRECTORIES then None
    else WalkEntries(dir, dir.entries, scope, relative, w.(directories := w.directories + 1))
  }

  function WalkEntries(dir: Fs, entries: seq<Entry>, scope: Path, relative: Path, w: Walk): Option<Walk>
    requires dir.Dir? && forall e | e in entries :: e in dir.entries
    decreases dir, 0, |entries|
  {
    if entries == [] then Some(w)
    else
      assert entries[0] in dir.entries;
      var first := WalkEntry(dir, entries[0], scope, relative, w);
      if first.None? then None else WalkEntries(dir, entries[1..], scope, relative, first.value)
  }

  function WalkEntry(dir: Fs, e: Entry, scope: Path, relative: Path, w: Walk): Option<Walk>
    requires dir.Dir? && e in dir.entries
    decreases dir, 0, 0
  {
    if e.name != "" && e.name[0] == '.' then Some(w)
    else if w.entries + 1 > MAX_ENTRIES then None
    else
      var counted := w.(entries := w.entries + 1);
      match e.node
      case Dir(_, _) => WalkDirectory(e.node, scope, relative + [e.name], counted)
      case File(_, single, _, _) =>
        if !single then None
        else if !YamlName(e.name) then Some(counted)
        else Some(counted.(inventory := counted.inventory + {relative + [e.name]}, files := counted.files + [scope + relative + [e.name]]))
      case Special => None
  }

  // ----- The scan

  /** `done` and `swallowed` are history: completed loads, and secrets files of which a missing include was ignored. */
  datatype Scan = Scan(
    sources: map<Path, Source>,
    directories: map<Path, Scope>,
    secrets: set<Path>,
    grants: set<Path>,
    stack: set<Path>,
    includes: nat,
    loads: nat,
    directoriesSeen: nat,
    entries: nat,
    totalBytes: nat,
    events: nat,
    nodes: nat,
    done: set<(Path, Context)>,
    swallowed: set<Path>)

  datatype Outcome = Ok | Denied | Missing

  datatype Progress = Progress(outcome: Outcome, scan: Scan)

  function Size(n: Node): nat {
    match n
    case Scalar(_, _) => 1
    case Sequence(_, items) => 1 + SizeAll(items)
    case Mapping(_, pairs) => 1 + SizePairs(pairs)
  }

  function SizeAll(items: seq<Node>): nat {
    if items == [] then 0 else 1 + Size(items[0]) + SizeAll(items[1..])
  }

  function SizePairs(pairs: seq<Pair>): nat {
    if pairs == [] then 0 else SizePair(pairs[0]) + SizePairs(pairs[1..])
  }

  function SizePair(pair: Pair): nat {
    1 + Size(pair.key) + Size(pair.value)
  }

  predicate GoodOperand(value: string) {
    value != "" && |value| <= MAX_OPERAND && forall c | c in value :: c >= ' '
  }

  /** The context of the value under a key; an unusual key starts over. */
  function ChildContext(key: Node, context: Context): Context {
    if key.Scalar? && key.tag == Yaml("str") then context + [key.value] else []
  }

  /** A file has been read: note it, unless it changed or is one too many. */
  function Noted(s: Scan, parts: Path, file: Fs, context: Context): Scan
    requires file.File?
  {
    var source := Source(file.info, file.content);
    s.(sources := if parts in s.sources then s.sources else s.sources[parts := source],
       grants := if DefinesGrants(context) then s.grants + {parts} else s.grants,
       stack := s.stack + {parts})
  }

  /** Neither too many bytes nor too many files, and not a file that changed since it was first read. */
  predicate Acceptable(sources: map<Path, Source>, totalBytes: nat, parts: Path, file: Fs)
    requires file.File?
  {
    && totalBytes <= MAX_BYTES
    && (parts in sources ==> sources[parts] == Source(file.info, file.content))
    && |sources.Keys + {parts}| <= MAX_FILES
  }

  predicate Parsable(events: nat, content: Content) {
    !content.Malformed? && events + content.events <= MAX_EVENTS
  }

  function Load(fs: Fs, s: Scan, parts: Path, depth: nat, context: Context): (r: Progress)
    requires s.loads <= MAX_LOADS
    ensures r.scan.stack == s.stack && s.swallowed <= r.scan.swallowed
    ensures !r.outcome.Denied? ==> s.loads < r.scan.loads <= MAX_LOADS
    decreases MAX_LOADS + 1 - s.loads, 0, 0
  {
    if depth > MAX_DEPTH || parts in s.stack || s.loads + 1 > MAX_LOADS then Progress(Denied, s)
    else
      var counted := s.(loads := s.loads + 1);
      match ReadFile(fs, parts)
      case Gone => Progress(Missing, counted)
      case Refused => Progress(Denied, counted)
      case Found(file) =>
        var weighed := counted.(totalBytes := s.totalBytes + file.size);
        if !Acceptable(s.sources, s.totalBytes + file.size, parts, file) then Progress(Denied, weighed)
        else
          var noted := Noted(weighed, parts, file, context);
          if !Parsable(s.events, file.content) then Progress(Denied, noted.(stack := s.stack))
          else
            var parsed := noted.(events := noted.events + file.content.events);
            var inner := if file.content.Empty? then Progress(Ok, parsed)
                         else Visit(fs, parsed, file.content.root, parts, depth, 1, context);
            Progress(inner.outcome, inner.scan.(stack := s.stack,
                     done := if inner.outcome.Ok? then inner.scan.done + {(parts, context)} else inner.scan.done))
  }

  function LoadAll(fs: Fs, s: Scan, files: seq<Path>, depth: nat, context: Context): (r: Progress)
    requires s.loads <= MAX_LOADS
    ensures r.scan.stack == s.stack && s.swallowed <= r.scan.swallowed
    ensures !r.outcome.Denied? ==> s.loads <= r.scan.loads <= MAX_LOADS
    decreases MAX_LOADS + 1 - s.loads, 0, 1 + |files|
  {
    if files == [] then Progress(Ok, s)
    else
      var first := Load(fs, s, files[0], depth, context);
      if !first.outcome.Ok? then first else LoadAll(fs, first.scan, files[1..], depth, context)
  }

  /** The secrets files from a directory up to the root; one that is missing is skipped. */
  function SecretCandidates(fs: Fs, s: Scan, parent: Path, index: nat, context: Context): (r: Progress)
    requires s.loads <= MAX_LOADS && index <= |parent|
    ensures r.scan.stack == s.stack && s.swallowed <= r.scan.swallowed
    ensures !r.outcome.Denied? ==> s.loads <= r.scan.loads <= MAX_LOADS
    ensures !r.outcome.Missing?
    decreases MAX_LOADS + 1 - s.loads, 0, 1 + index
  {
    var candidate := parent[..index] + ["secrets.yaml"];
    var named := s.(secrets := s.secrets + {candidate});
    var first := Load(fs, named, candidate, 0, context);
    var after := if first.outcome.Missing? && !ReadFile(fs, candidate).Gone?
                 then first.scan.(swallowed := first.scan.swallowed + {candidate}) else first.scan;
    if first.outcome.Denied? then first
    else if index == 0 then Progress(Ok, after)
    else SecretCandidates(fs, after, parent, index - 1, context)
  }

  function IncludeDirectory(fs: Fs, s: Scan, parts: Path, depth: nat, context: Context): (r: Progress)
    requires s.loads <= MAX_LOADS
    ensures r.scan.stack == s.stack && s.swallowed <= r.scan.swallowed
    ensures !r.outcome.Denied? ==> s.loads <= r.scan.loads <= MAX_LOADS
    decreases MAX_LOADS + 1 - s.loads, 1, 0
  {
    match OpenDirectory(fs, parts)
    case Gone => Progress(Missing, s)
    case Refused => Progress(Denied, s)
    case Found(dir) =>
      var walk := WalkDirectory(dir, parts, [], Walk(s.directoriesSeen, s.entries, {}, []));
      if walk.None? then Progress(Denied, s)
      else
        var scope := Scope(dir.info, walk.value.inventory);
        var counted := s.(directoriesSeen := walk.value.directories, entries := walk.value.entries);
        if parts in s.directories && s.directories[parts] != scope then Progress(Denied, counted)
        else LoadAll(fs, counted.(directories := s.directories[parts := scope]), walk.value.files, depth, context)
  }

  function Visit(fs: Fs, s: Scan, n: Node, current: Path, depth: nat, nodeDepth: nat, context: Context): (r: Progress)
    requires s.loads <= MAX_LOADS && current != []
    ensures r.scan.stack == s.stack && s.swallowed <= r.scan.swallowed
    ensures !r.outcome.Denied? ==> s.loads <= r.scan.loads <= MAX_LOADS
    decreases MAX_LOADS + 1 - s.loads, 2 + Size(n), 1
  {
    if nodeDepth > MAX_NODE_DEPTH || s.nodes + 1 > MAX_NODES || n.tag.Unrecognized? then Progress(Denied, s)
    else
      var counted := s.(nodes := s.nodes + 1);
      if !n.tag.Yaml? then VisitTag(fs, counted, n, current, depth, context)
      else match n
        case Scalar(_, _) => Progress(Ok, counted)
        case Sequence(_, items) => VisitItems(fs, counted, items, current, depth, nodeDepth, context)
        case Mapping(_, pairs) => VisitPairs(fs, counted, pairs, {}, current, depth, nodeDepth, context)
  }

  function VisitTag(fs: Fs, s: Scan, n: Node, current: Path, depth: nat, context: Context): (r: Progress)
    requires s.loads <= MAX_LOADS && current != []
    ensures r.scan.stack == s.stack && s.swallowed <= r.scan.swallowed
    ensures !r.outcome.Denied? ==> s.loads <= r.scan.loads <= MAX_LOADS
    decreases MAX_LOADS + 1 - s.loads, 2 + Size(n), 0
  {
    if !n.Scalar? then Progress(Denied, s)
    else
      var here := current[..|current| - 1];
      if n.tag.EnvVar? || n.tag.Input? then Progress(Ok, s)
      else if n.tag.Secret? then
        if !GoodOperand(n.value) then Progress(Denied, s) else SecretCandidates(fs, s, here, |here|, context)
      else if !GoodOperand(n.value) || Parts(n.value).None? || s.includes + 1 > MAX_INCLUDES then Progress(Denied, s)
      else
        var counted := s.(includes := s.includes + 1);
        if n.tag.Include? then Load(fs, counted, here + Parts(n.value).value, depth + 1, context)
        else IncludeDirectory(fs, counted, here + Parts(n.value).value, depth + 1, context)
  }

  function VisitItems(fs: Fs, s: Scan, items: seq<Node>, current: Path, depth: nat, nodeDepth: nat, context: Context): (r: Progress)
    requires s.loads <= MAX_LOADS && current != []
    ensures r.scan.stack == s.stack && s.swallowed <= r.scan.swallowed
    ensures !r.outcome.Denied? ==> s.loads <= r.scan.loads <= MAX_LOADS
    decreases MAX_LOADS + 1 - s.loads, 2 + SizeAll(items), 2
  {
    if items == [] then Progress(Ok, s)
    else
      var first := Visit(fs, s, items[0], current, depth, nodeDepth + 1, context);
      if !first.outcome.Ok? then first else VisitItems(fs, first.scan, items[1..], current, depth, nodeDepth, context)
  }

  function VisitPairs(fs: Fs, s: Scan, pairs: seq<Pair>, keys: set<(Tag, string)>, current: Path, depth: nat, nodeDepth: nat,
                      context: Context): (r: Progress)
    requires s.loads <= MAX_LOADS && current != []
    ensures r.scan.stack == s.stack && s.swallowed <= r.scan.swallowed
    ensures !r.outcome.Denied? ==> s.loads <= r.scan.loads <= MAX_LOADS
    decreases MAX_LOADS + 1 - s.loads, 2 + SizePairs(pairs), 2
  {
    if pairs == [] then Progress(Ok, s)
    else
      var key, value := pairs[0].key, pairs[0].value;
      assert SizePairs(pairs) == SizePair(pairs[0]) + SizePairs(pairs[1..]) && SizePair(pairs[0]) == 1 + Size(key) + Size(value);
      if key.Scalar? && (key.tag, key.value) in keys then Progress(Denied, s)
      else
        var seen := if key.Scalar? then keys + {(key.tag, key.value)} else keys;
        var first := Visit(fs, s, key, current, depth, nodeDepth + 1, context);
        if !first.outcome.Ok? then first
        else
          var second := Visit(fs, first.scan, value, current, depth, nodeDepth + 1, ChildContext(key, context));
          if !second.outcome.Ok? then second
          else VisitPairs(fs, second.scan, pairs[1..], seen, current, depth, nodeDepth, context)
  }

  const Root: Path := ["configuration.yaml"]

  const NewScan := Scan(map[], map[], {}, {}, {}, 0, 0, 0, 0, 0, 0, 0, {}, {})

  function Scanned(fs: Fs): Progress {
    Load(fs, NewScan, Root, 0, [])
  }

  function GraphOf(s: Scan): Graph {
    Graph(s.sources, s.directories, s.secrets, s.grants)
  }

  /** A complete snapshot, or all source-derived grants are denied. */
  function ScanSourceGraph(fs: Fs): Option<Graph> {
    var r := Scanned(fs);
    if r.outcome.Ok? then Some(GraphOf(r.scan)) else None
  }
}
