/**
 The scanner as the object it is: counters and dictionaries updated during the recursion, a denial ending
 the whole scan. Each method does what the function of the same name says.
 */
module Scanner {
  import opened Models
  import opened SourceGraph
  import ScanSafety

  lemma {:induction false} SizeItem(items: seq<Node>, i: nat)
    requires i < |items|
    ensures Size(items[i]) < SizeAll(items)
  {
    if i > 0 {
      SizeItem(items[1..], i - 1);
    }
  }

  lemma {:induction false} SizeOfPair(pairs: seq<Pair>, i: nat)
    requires i < |pairs|
    ensures Size(pairs[i].key) < SizePairs(pairs) && Size(pairs[i].value) < SizePairs(pairs)
  {
    assert SizePairs(pairs) == SizePair(pairs[0]) + SizePairs(pairs[1..]);
    assert SizePair(pairs[0]) == 1 + Size(pairs[0].key) + Size(pairs[0].value);
    if i > 0 {
      SizeOfPair(pairs[1..], i - 1);
    }
  }

  class Scanner {
    const fs: Fs
    var sources: map<Path, Source>
    var directories: map<Path, Scope>
    var secrets: set<Path>
    var grants: set<Path>
    var stack: set<Path>
    var includes: nat
    var loads: nat
    var directoriesSeen: nat
    var entries: nat
    var totalBytes: nat
    var events: nat
    var nodes: nat
    ghost var done: set<(Path, Context)>
    ghost var swallowed: set<Path>

    constructor (fs: Fs)
      ensures this.fs == fs && State() == NewScan
    {
      this.fs := fs;
      sources, directories, secrets, grants, stack := map[], map[], {}, {}, {};
      includes, loads, directoriesSeen, entries, totalBytes, events, nodes := 0, 0, 0, 0, 0, 0, 0;
      done, swallowed := {}, {};
    }

    ghost function State(): SourceGraph.Scan reads this {
      SourceGraph.Scan(sources, directories, secrets, grants, stack, includes, loads, directoriesSeen, entries, totalBytes, events, nodes,
           done, swallowed)
    }

    /** What a method owes the function it follows: the outcome, and the state unless the scan is over. */
    ghost predicate Follows(outcome: Outcome, r: Progress) reads this {
      outcome == r.outcome && (!outcome.Denied? ==> State() == r.scan)
    }

    method Load(parts: Path, depth: nat, context: Context) returns (outcome: Outcome)
      requires loads <= MAX_LOADS
      modifies this
      ensures Follows(outcome, SourceGraph.Load(fs, old(State()), parts, depth, context)) && stack == old(stack)
      decreases MAX_LOADS + 1 - loads, 0, 0
    {
      hide SourceGraph.Load, ReadFile, SourceGraph.Visit, Acceptable, Parsable, DefinesGrants;
      ScanSafety.LoadCases(fs, State(), parts, depth, context);
      outcome := Denied;
      if depth <= MAX_DEPTH && parts !in stack {
        loads := loads + 1;
        if loads <= MAX_LOADS {
          var read := ReadFile(fs, parts);
          if read.Gone? {
            outcome := Missing;
          } else if read.Found? {
            var accepted := Record(parts, read.file, context);
            if accepted {
              outcome := Enter(parts, read.file.content, depth, context);
            }
          }
        }
      }
    }

    /** The document of a file that was noted, with the file on the stack meanwhile. */
    method Enter(parts: Path, content: Content, depth: nat, context: Context) returns (outcome: Outcome)
      requires loads <= MAX_LOADS && parts != [] && parts !in stack
      modifies this
      ensures stack == old(stack) && (!Parsable(old(events), content) ==> outcome.Denied?)
      ensures Parsable(old(events), content) ==>
                var s := old(State()).(stack := old(stack) + {parts}, events := old(events) + content.events);
                var inner := if content.Empty? then Progress(Ok, s) else SourceGraph.Visit(fs, s, content.root, parts, depth, 1, context);
                Follows(outcome, Progress(inner.outcome, inner.scan.(stack := old(stack),
                        done := if inner.outcome.Ok? then inner.scan.done + {(parts, context)} else inner.scan.done)))
      decreases MAX_LOADS + 1 - loads, if content.Document? then 2 + Size(content.root) else 0, 3
    {
      hide SourceGraph.Visit, Parsable;
      stack := stack + {parts};
      outcome := ComposeAndVisit(content, parts, depth, context);
      stack := stack - {parts};
      assert stack == old(stack);
      if outcome.Ok? {
        done := done + {(parts, context)};
      }
    }

    /** Note a file that was read, unless it changed or is one too many. */
    method Record(parts: Path, file: Fs, context: Context) returns (ok: bool)
      requires file.File?
      modifies this`totalBytes, this`sources, this`grants
      ensures ok == Acceptable(old(sources), old(totalBytes) + file.size, parts, file)
      ensures ok ==> State().(stack := old(stack) + {parts}) ==
                     Noted(old(State()).(totalBytes := old(totalBytes) + file.size), parts, file, context)
    {
      hide DefinesGrants;
      totalBytes := totalBytes + file.size;
      ok := totalBytes <= MAX_BYTES;
      if ok {
        var source := Source(file.info, file.content);
        if parts !in sources {
          sources := sources[parts := source];
        }
        assert sources.Keys == old(sources).Keys + {parts};
        ok := sources[parts] == source && |sources| <= MAX_FILES;
        if ok && DefinesGrants(context) {
          grants := grants + {parts};
        }
      }
    }

    /** Count the parse events, and visit the document if there is one. */
    method ComposeAndVisit(content: Content, current: Path, depth: nat, context: Context) returns (outcome: Outcome)
      requires loads <= MAX_LOADS && current != []
      modifies this
      ensures stack == old(stack)
      ensures !Parsable(old(events), content) ==> outcome.Denied?
      ensures Parsable(old(events), content) ==>
                var s := old(State()).(events := old(events) + content.events);
                Follows(outcome, if content.Empty? then Progress(Ok, s) else SourceGraph.Visit(fs, s, content.root, current, depth, 1, context))
      decreases MAX_LOADS + 1 - loads, if content.Document? then 2 + Size(content.root) else 0, 2
    {
      hide SourceGraph.Visit;
      events := events + content.events;
      if events > MAX_EVENTS || content.Malformed? {
        return Denied;
      }
      outcome := Ok;
      if content.Document? {
        outcome := Visit(content.root, current, depth, 1, context);
      }
    }

    method Visit(n: Node, current: Path, depth: nat, nodeDepth: nat, context: Context) returns (outcome: Outcome)
      requires loads <= MAX_LOADS && current != []
      modifies this
      ensures Follows(outcome, SourceGraph.Visit(fs, old(State()), n, current, depth, nodeDepth, context)) && stack == old(stack)
      decreases MAX_LOADS + 1 - loads, 2 + Size(n), 1
    {
      hide SourceGraph.VisitTag, VisitItems, VisitPairs;
      if nodeDepth > MAX_NODE_DEPTH {
        return Denied;
      }
      nodes := nodes + 1;
      if nodes > MAX_NODES {
        return Denied;
      }
      if n.tag.Unrecognized? {
        return Denied;
      }
      if !n.tag.Yaml? {
        outcome := VisitTag(n, current, depth, context);
      } else {
        outcome := VisitChildren(n, current, depth, nodeDepth, context);
      }
    }

    method VisitTag(n: Node, current: Path, depth: nat, context: Context) returns (outcome: Outcome)
      requires loads <= MAX_LOADS && current != [] && !n.tag.Yaml? && !n.tag.Unrecognized?
      modifies this
      ensures Follows(outcome, SourceGraph.VisitTag(fs, old(State()), n, current, depth, context)) && stack == old(stack)
      decreases MAX_LOADS + 1 - loads, 2 + Size(n), 0
    {
      hide SourceGraph.Load, SourceGraph.IncludeDirectory, SourceGraph.SecretCandidates, Parts, GoodOperand;
      if !n.Scalar? {
        return Denied;
      }
      var here := current[..|current| - 1];
      if n.tag.EnvVar? || n.tag.Input? {
        outcome := Ok;
      } else if n.tag.Secret? {
        if !GoodOperand(n.value) {
          return Denied;
        }
        outcome := SecretCandidates(here, context);
      } else {
        if !GoodOperand(n.value) || Parts(n.value).None? {
          return Denied;
        }
        includes := includes + 1;
        if includes > MAX_INCLUDES {
          return Denied;
        }
        if n.tag.Include? {
          outcome := Load(here + Parts(n.value).value, depth + 1, context);
        } else {
          outcome := IncludeDirectory(here + Parts(n.value).value, depth + 1, context);
        }
      }
    }

    method VisitChildren(n: Node, current: Path, depth: nat, nodeDepth: nat, context: Context) returns (outcome: Outcome)
      requires loads <= MAX_LOADS && current != [] && n.tag.Yaml?
      modifies this
      ensures stack == old(stack)
      ensures Follows(outcome, match n
                case Scalar(_, _) => Progress(Ok, old(State()))
                case Sequence(_, items) => VisitItems(fs, old(State()), items, current, depth, nodeDepth, context)
                case Mapping(_, pairs) => VisitPairs(fs, old(State()), pairs, {}, current, depth, nodeDepth, context))
      decreases MAX_LOADS + 1 - loads, 2 + Size(n), 0
    {
      match n {
        case Scalar(_, _) => outcome := Ok;
        case Sequence(_, items) => outcome := VisitEach(items, current, depth, nodeDepth, context);
        case Mapping(_, pairs) => outcome := VisitEachPair(pairs, current, depth, nodeDepth, context);
      }
    }

    method VisitEach(items: seq<Node>, current: Path, depth: nat, nodeDepth: nat, context: Context) returns (outcome: Outcome)
      requires loads <= MAX_LOADS && current != []
      modifies this
      ensures Follows(outcome, VisitItems(fs, old(State()), items, current, depth, nodeDepth, context)) && stack == old(stack)
      decreases MAX_LOADS + 1 - loads, 2 + SizeAll(items), 2
    {
      hide SourceGraph.Visit, Size, SizeAll;
      for i := 0 to |items|
        invariant old(loads) <= loads <= MAX_LOADS && stack == old(stack)
        invariant VisitItems(fs, old(State()), items, current, depth, nodeDepth, context) ==
                  VisitItems(fs, State(), items[i..], current, depth, nodeDepth, context)
      {
        assert items[i..][0] == items[i] && items[i..][1..] == items[i + 1..];
        SizeItem(items, i);
        outcome := Visit(items[i], current, depth, nodeDepth + 1, context);
        if !outcome.Ok? {
          return;
        }
      }
      outcome := Ok;
    }

    method VisitEachPair(pairs: seq<Pair>, current: Path, depth: nat, nodeDepth: nat, context: Context) returns (outcome: Outcome)
      requires loads <= MAX_LOADS && current != []
      modifies this
      ensures Follows(outcome, VisitPairs(fs, old(State()), pairs, {}, current, depth, nodeDepth, context)) && stack == old(stack)
      decreases MAX_LOADS + 1 - loads, 2 + SizePairs(pairs), 2
    {
      hide SourceGraph.Visit, Size, SizePairs, SizePair, ChildContext;
      var keys: set<(Tag, string)> := {};
      for i := 0 to |pairs|
        invariant old(loads) <= loads <= MAX_LOADS && stack == old(stack)
        invariant VisitPairs(fs, old(State()), pairs, {}, current, depth, nodeDepth, context) ==
                  VisitPairs(fs, State(), pairs[i..], keys, current, depth, nodeDepth, context)
      {
        var key, value := pairs[i].key, pairs[i].value;
        assert pairs[i..][0] == pairs[i] && pairs[i..][1..] == pairs[i + 1..];
        SizeOfPair(pairs, i);
        if key.Scalar? {
          if (key.tag, key.value) in keys {
            return Denied;
          }
          keys := keys + {(key.tag, key.value)};
        }
        outcome := Visit(key, current, depth, nodeDepth + 1, context);
        if !outcome.Ok? {
          return;
        }
        outcome := Visit(value, current, depth, nodeDepth + 1, ChildContext(key, context));
        if !outcome.Ok? {
          return;
        }
      }
      outcome := Ok;
    }

    method IncludeDirectory(parts: Path, depth: nat, context: Context) returns (outcome: Outcome)
      requires loads <= MAX_LOADS
      modifies this
      ensures Follows(outcome, SourceGraph.IncludeDirectory(fs, old(State()), parts, depth, context)) && stack == old(stack)
      decreases MAX_LOADS + 1 - loads, 1, 0
    {
      hide SourceGraph.Load, WalkDirectory, OpenDirectory;
      var read := OpenDirectory(fs, parts);
      if read.Gone? {
        return Missing;
      }
      if read.Refused? {
        return Denied;
      }
      var walk := WalkDirectory(read.file, parts, [], Walk(directoriesSeen, entries, {}, []));
      if walk.None? {
        return Denied;
      }
      directoriesSeen, entries := walk.value.directories, walk.value.entries;
      var scope := Scope(read.file.info, walk.value.inventory);
      if parts in directories && directories[parts] != scope {
        return Denied;
      }
      directories := directories[parts := scope];
      var files := walk.value.files;
      ghost var start := State();
      for i := 0 to |files|
        invariant old(loads) <= loads <= MAX_LOADS && stack == old(stack)
        invariant LoadAll(fs, start, files, depth, context) == LoadAll(fs, State(), files[i..], depth, context)
      {
        assert files[i..][0] == files[i] && files[i..][1..] == files[i + 1..];
        outcome := Load(files[i], depth, context);
        if !outcome.Ok? {
          return;
        }
      }
      outcome := Ok;
    }

    method SecretCandidates(parent: Path, context: Context) returns (outcome: Outcome)
      requires loads <= MAX_LOADS
      modifies this
      ensures Follows(outcome, SourceGraph.SecretCandidates(fs, old(State()), parent, |parent|, context)) && stack == old(stack)
      decreases MAX_LOADS + 1 - loads, 1, 0
    {
      hide SourceGraph.Load, ReadFile;
      var index := |parent|;
      while true
        invariant 0 <= index <= |parent| && old(loads) <= loads <= MAX_LOADS && stack == old(stack)
        invariant SourceGraph.SecretCandidates(fs, old(State()), parent, |parent|, context) ==
                  SourceGraph.SecretCandidates(fs, State(), parent, index, context)
        decreases index
      {
        var candidate := parent[..index] + ["secrets.yaml"];
        secrets := secrets + {candidate};
        var loaded := Load(candidate, 0, context);
        if loaded.Denied? {
          return Denied;
        }
        if loaded.Missing? && !ReadFile(fs, candidate).Gone? {
          swallowed := swallowed + {candidate};
        }
        if index == 0 {
          return Ok;
        }
        index := index - 1;
      }
    }

    /** The whole scan. */
    method Run() returns (graph: Option<Graph>)
      requires State() == NewScan
      modifies this
      ensures graph == ScanSourceGraph(fs)
    {
      hide SourceGraph.Load;
      var outcome := Load(Root, 0, []);
      graph := if outcome.Ok? then Some(Graph(sources, directories, secrets, grants)) else None;
    }
  }
}
