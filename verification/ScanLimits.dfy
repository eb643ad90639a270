/**
 Where the authority of a scan ends: configurations outside the conditions of the theorems.
 */
module ScanLimits {
  import opened Models
  import opened PatchParser
  import opened SourceGraph
  import opened ScanSafety
  import opened GrantSafety
  import opened ScanTheorems

  function Key(name: string): Node {
    Scalar(Yaml("str"), name)
  }

  function Single(key: Node, value: Node): Node {
    Mapping(Yaml("map"), [Pair(key, value)])
  }

  function YamlFile(info: nat, root: Node): Fs {
    File(info, true, 10, Document(10, root))
  }

  /** Visiting a mapping with one pair comes down to visiting its value. */
  lemma VisitSingle(fs: Fs, s: Scan, key: Node, value: Node, current: Path, depth: nat, nodeDepth: nat, context: Context)
    requires s.loads <= MAX_LOADS && current != [] && s.nodes + 2 <= MAX_NODES && nodeDepth < MAX_NODE_DEPTH
    requires key.Scalar? && key.tag.Yaml?
    ensures Visit(fs, s, Single(key, value), current, depth, nodeDepth, context) ==
            Visit(fs, s.(nodes := s.nodes + 2), value, current, depth, nodeDepth + 1, ChildContext(key, context))
  {
    var pair, counted := Pair(key, value), s.(nodes := s.nodes + 1);
    hide ChildContext;
    assert Visit(fs, counted, key, current, depth, nodeDepth + 1, context) == Progress(Ok, s.(nodes := s.nodes + 2));
    assert [pair][1..] == [];
    var second := Visit(fs, s.(nodes := s.nodes + 2), value, current, depth, nodeDepth + 1, ChildContext(key, context));
    hide Visit;
    assert VisitPairs(fs, counted, [pair], {}, current, depth, nodeDepth, context) == second;
  }

  /** The final scan of one included file whose document is a plain scalar. */
  lemma LoadScalarFile(fs: Fs, s: Scan, parts: Path, depth: nat, context: Context, text: string, info: nat)
    requires ReadFile(fs, parts) == Found(YamlFile(info, Key(text))) && parts != [] && parts !in s.sources && parts !in s.stack
    requires depth <= MAX_DEPTH && s.loads < MAX_LOADS && s.totalBytes + 10 <= MAX_BYTES && s.events + 10 <= MAX_EVENTS
    requires |s.sources.Keys + {parts}| <= MAX_FILES && s.nodes < MAX_NODES
    ensures
      var r := Load(fs, s, parts, depth, context);
      && r.outcome.Ok? && r.scan.sources == s.sources[parts := Source(info, Document(10, Key(text)))]
      && r.scan.directories == s.directories && r.scan.secrets == s.secrets && r.scan.swallowed == s.swallowed
      && r.scan.grants == (if DefinesGrants(context) then s.grants + {parts} else s.grants)
      && r.scan.done == s.done + {(parts, context)}
  {
    hide ReadFile, DefinesGrants, Load;
    LoadCases(fs, s, parts, depth, context);
    assert Opens(fs, s, parts, depth, context);
    ScalarVisit(fs, Opened(s, parts, YamlFile(info, Key(text)), context), text, parts, depth, context);
    hide Visit, Acceptable;
  }

  lemma ScalarVisit(fs: Fs, s: Scan, text: string, current: Path, depth: nat, context: Context)
    requires s.loads <= MAX_LOADS && current != [] && s.nodes < MAX_NODES
    ensures Visit(fs, s, Key(text), current, depth, 1, context) == Progress(Ok, s.(nodes := s.nodes + 1))
  {
  }

  // ----- A merge key below the root

  /** homeassistant: {<<: {packages: !include p.yaml}} */
  const Merging := Single(Key("homeassistant"), Single(Scalar(Yaml("merge"), "<<"), Single(Key("packages"), Scalar(Include, "p.yaml"))))

  function MergeTree(text: string): Fs {
    Dir(0, [Entry("configuration.yaml", YamlFile(1, Merging)), Entry("p.yaml", YamlFile(2, Key(text)))])
  }

  lemma FindSecond(a: Entry, b: Entry, name: string)
    requires a.name != name && b.name == name
    ensures Find([a, b], name) == Some(b.node)
  {
    assert [a, b][1..] == [b];
  }

  /** Reading the second of two files in the root. */
  lemma SecondReads(a: Entry, b: Entry, name: string)
    requires a.name != name && b.name == name && b.node.File? && b.node.single && b.node.size <= MAX_FILE_BYTES
    ensures ReadFile(Dir(0, [a, b]), [name]) == Found(b.node)
  {
    FindSecond(a, b, name);
    assert [name][..0] == [];
    hide Find;
  }

  lemma MergeReads(text: string)
    ensures ReadFile(MergeTree(text), Root) == Found(YamlFile(1, Merging))
    ensures ReadFile(MergeTree(text), ["p.yaml"]) == Found(YamlFile(2, Key(text)))
  {
    var fs := MergeTree(text);
    assert Root[..0] == [];
    assert |"configuration.yaml"| != |"p.yaml"|;
    SecondReads(fs.entries[0], fs.entries[1], "p.yaml");
  }

  /** A file name as an operand. */
  lemma NameIsOperand(name: string)
    requires 3 <= |name| <= MAX_OPERAND && forall c | c in name :: c >= ' ' && c != '/' && c != '\\'
    ensures Parts(name) == Some([name]) && GoodOperand(name)
  {
    UpToIs(name, name, '/');
    assert Split(name, '/') == [name];
    assert name[0] in name;
  }

  lemma PYaml()
    ensures Parts("p.yaml") == Some(["p.yaml"]) && GoodOperand("p.yaml")
  {
    hide Parts, GoodOperand;
    NameIsOperand("p.yaml");
  }

  /** The scan after the root document was opened. */
  function OpenedRoot(root: Node): Scan {
    Opened(NewScan, Root, YamlFile(1, root), [])
  }

  lemma MergeScan(text: string)
    ensures
      var r := Scanned(MergeTree(text));
      && r.outcome.Ok?
      && GraphOf(r.scan) == Graph(map[Root := Source(1, Document(10, Merging)), ["p.yaml"] := Source(2, Document(10, Key(text)))],
                                  map[], {}, {Root})
      && r.scan.swallowed == {}
  {
    var fs, s := MergeTree(text), OpenedRoot(Merging);
    MergeReads(text);
    LoadCases(fs, NewScan, Root, 0, []);
    assert Opens(fs, NewScan, Root, 0, []);
    assert Visited(fs, NewScan, Root, 0, []) == Visit(fs, s, Merging, Root, 0, 1, []);
    MergeVisit(fs, s, text);
    hide Load, Visit, ReadFile;
  }

  lemma MergeVisit(fs: Fs, s: Scan, text: string)
    requires ReadFile(fs, ["p.yaml"]) == Found(YamlFile(2, Key(text))) && s.stack == {Root} && s.sources.Keys == {Root}
    requires s.loads == 1 && s.nodes == 0 && s.includes == 0 && s.totalBytes == 10 && s.events == 10
    ensures
      var r := Visit(fs, s, Merging, Root, 0, 1, []);
      && r.outcome.Ok? && r.scan.sources == s.sources[["p.yaml"] := Source(2, Document(10, Key(text)))]
      && r.scan.directories == s.directories && r.scan.secrets == s.secrets && r.scan.swallowed == s.swallowed &&
        r.scan.grants == s.grants
  {
    var included := Scalar(Include, "p.yaml");
    var packages := Single(Key("packages"), included);
    var merge := Scalar(Yaml("merge"), "<<");
    hide Visit, ReadFile, Load;
    VisitSingle(fs, s, Key("homeassistant"), Single(merge, packages), Root, 0, 1, []);
    VisitSingle(fs, s.(nodes := s.nodes + 2), merge, packages, Root, 0, 2, ["homeassistant"]);
    VisitSingle(fs, s.(nodes := s.nodes + 4), Key("packages"), included, Root, 0, 3, []);
    assert [] + ["homeassistant"] == ["homeassistant"] && [] + ["packages"] == ["packages"];
    IncludeVisit(fs, s.(nodes := s.nodes + 6), 4, ["packages"]);
    assert Root != ["p.yaml"] by { assert |Root[0]| == 18 && |"p.yaml"| == 6; }
    assert !DefinesGrants(["packages"]) by { assert |"packages"| == 8 && |"hapatchy"| == 8 && "packages"[0] == 'p' &&
      "hapatchy"[0] == 'h' && |"homeassistant"| == 13; }
    hide DefinesGrants;
    LoadScalarFile(fs, s.(nodes := s.nodes + 7, includes := 1), ["p.yaml"], 1, ["packages"], text, 2);
  }

  lemma IncludeVisit(fs: Fs, s: Scan, nodeDepth: nat, context: Context)
    requires s.loads <= MAX_LOADS && s.nodes < MAX_NODES && nodeDepth <= MAX_NODE_DEPTH && s.includes < MAX_INCLUDES
    ensures Visit(fs, s, Scalar(Include, "p.yaml"), Root, 0, nodeDepth, context) ==
            Load(fs, s.(nodes := s.nodes + 1, includes := s.includes + 1), ["p.yaml"], 1, context)
  {
    hide Load, Parts, GoodOperand;
    PYaml();
    assert Root[..0] + ["p.yaml"] == ["p.yaml"];
    var n, counted := Scalar(Include, "p.yaml"), s.(nodes := s.nodes + 1);
    assert VisitTag(fs, counted, n, Root, 0, context) == Load(fs, s.(nodes := s.nodes + 1, includes := s.includes + 1), ["p.yaml"], 1, context);
    hide VisitTag;
  }

  lemma EvalScalarFile(fs: Fs, p: Path, text: string, info: nat, fuel: nat)
    requires p != [] && ReadFile(fs, p) == Found(YamlFile(info, Key(text))) && fuel >= 1
    ensures EvalFile(fs, p, fuel) == Text(Yaml("str"), text)
  {
    hide ReadFile;
    assert Eval(fs, Key(text), p, fuel - 1) == Text(Yaml("str"), text);
  }

  lemma EvalIncluded(fs: Fs, text: string, fuel: nat)
    requires ReadFile(fs, ["p.yaml"]) == Found(YamlFile(2, Key(text))) && fuel >= 1
    ensures Eval(fs, Scalar(Include, "p.yaml"), Root, fuel) == Text(Yaml("str"), text)
  {
    EvalScalarFile(fs, ["p.yaml"], text, 2, fuel);
    PYaml();
    assert Root[..0] + ["p.yaml"] == ["p.yaml"] && Root != [];
    IncludeEvaluates(fs, "p.yaml", Root, fuel);
    hide ReadFile, EvalFile, Eval, Parts;
  }

  lemma IncludeEvaluates(fs: Fs, operand: string, current: Path, fuel: nat)
    requires current != [] && Parts(operand).Some?
    ensures Eval(fs, Scalar(Include, operand), current, fuel) == EvalFile(fs, current[..|current| - 1] + Parts(operand).value, fuel)
  {
    hide EvalFile, Parts;
    var n := Scalar(Include, operand);
    assert Eval(fs, n, current, fuel) == EvalTag(fs, n, current, fuel);
  }

  /** The value of a mapping with one pair. */
  lemma EvalSingle(fs: Fs, key: Node, value: Node, current: Path, fuel: nat)
    requires key.Scalar? && key.tag.Yaml? && current != []
    ensures Eval(fs, Single(key, value), current, fuel) == Dict([Item(Text(key.tag, key.value), Eval(fs, value, current, fuel))])
  {
    var pair := Pair(key, value);
    assert [pair][1..] == [];
    assert Eval(fs, key, current, fuel) == Text(key.tag, key.value);
    hide Eval;
    assert EvalPairs(fs, [pair], current, fuel) == [Item(Text(key.tag, key.value), Eval(fs, value, current, fuel))];
    assert Eval(fs, Single(key, value), current, fuel) == Dict(EvalPairs(fs, [pair], current, fuel)) by { EvalMapping(fs, [pair], current, fuel); }
  }

  lemma EvalMapping(fs: Fs, pairs: seq<Pair>, current: Path, fuel: nat)
    requires current != []
    ensures Eval(fs, Mapping(Yaml("map"), pairs), current, fuel) == Dict(EvalPairs(fs, pairs, current, fuel))
  {
  }

  lemma LookupSingle(loader: Loader, key: Value, value: Value, name: string)
    ensures Lookup(loader, Dict([Item(key, value)]), name) ==
            if key == StrKey(name) then Some(value) else if IsMerge(key) then Lookup(loader, value, name) else None
  {
    var item := Item(key, value);
    assert [item] + [] == [item];
    AssocFirst(loader, item, [], StrKey(name));
    assert Assoc(loader, [], StrKey(name)) == None;
    assert Lookup(loader, Dict([item]), name) == Assoc(loader, [item], StrKey(name));
    hide At, Assoc;
  }

  /** The packages of the configuration are what the merged file says, whatever that is. */
  lemma MergePackages(loader: Loader, text: string, fuel: nat)
    requires fuel >= 2
    ensures
      var section := Lookup(loader, Configuration(MergeTree(text), fuel), "homeassistant");
      section.Some? && Lookup(loader, section.value, "packages") == Some(Text(Yaml("str"), text))
  {
    hide Eval, Lookup, ReadFile;
    var fs, value := MergeTree(text), Text(Yaml("str"), text);
    var merge, included := Scalar(Yaml("merge"), "<<"), Scalar(Include, "p.yaml");
    var packages := Single(Key("packages"), included);
    MergeReads(text);
    EvalIncluded(fs, text, fuel - 1);
    EvalSingle(fs, Key("packages"), included, Root, fuel - 1);
    EvalSingle(fs, merge, packages, Root, fuel - 1);
    EvalSingle(fs, Key("homeassistant"), Single(merge, packages), Root, fuel - 1);
    var inner := Dict([Item(Text(Yaml("str"), "packages"), value)]);
    var section := Dict([Item(Text(Yaml("merge"), "<<"), inner)]);
    assert Merging == Single(Key("homeassistant"), Single(merge, packages));
    assert EvalFile(fs, Root, fuel) == EvalContent(fs, Document(10, Merging), Root, fuel - 1);
    assert Configuration(fs, fuel) == Dict([Item(Text(Yaml("str"), "homeassistant"), section)]);
    LookupSingle(loader, Text(Yaml("str"), "homeassistant"), section, "homeassistant");
    LookupSingle(loader, Text(Yaml("merge"), "<<"), inner, "packages");
    LookupSingle(loader, Text(Yaml("str"), "packages"), value, "packages");
  }

  lemma MergeAuthority()
    ensures
      var boot, now := Scanned(MergeTree("a")), Scanned(MergeTree("b"));
      boot.outcome.Ok? && now.outcome.Ok? && GraphOf(now.scan).SameAuthorityAs(GraphOf(boot.scan))
  {
    hide Scanned;
    MergeScan("a");
    MergeScan("b");
    assert Root != ["p.yaml"] by { assert |Root[0]| == 18 && |"p.yaml"| == 6; }
  }

  /**
   A merge key below the root: the same authority, different packages. The value merged in is scanned as if it
   stood at the root, so the file that supplies `packages` is not counted as a grant source.
   */
  lemma MergeKeyEscapes(loader: Loader, fuel: nat)
    requires fuel >= 2
    ensures
      var boot, now := MergeTree("a"), MergeTree("b");
      && Scanned(boot).outcome.Ok? && Scanned(now).outcome.Ok?
      && GraphOf(Scanned(now).scan).SameAuthorityAs(GraphOf(Scanned(boot).scan))
      && !SameGrants(loader, Configuration(boot, fuel), Configuration(now, fuel))
  {
    hide Scanned, Configuration, Lookup, MergeTree, GraphOf;
    MergeAuthority();
    MergePackages(loader, "a", fuel);
    MergePackages(loader, "b", fuel);
  }

  // ----- The same without the merge key

  /** homeassistant: {customize: !include p.yaml} */
  const Customized := Single(Key("homeassistant"), Single(Key("customize"), Scalar(Include, "p.yaml")))

  function CustomTree(text: string): Fs {
    Dir(0, [Entry("configuration.yaml", YamlFile(1, Customized)), Entry("p.yaml", YamlFile(2, Key(text)))])
  }

  lemma CustomScan(text: string)
    ensures
      var r := Scanned(CustomTree(text));
      && r.outcome.Ok? && r.scan.swallowed == {}
      && (forall d | d in r.scan.done :: d.1 == ["homeassistant", "customize"] || (d.0 == Root && d.1 == []))
      && GraphOf(r.scan) == Graph(map[Root := Source(1, Document(10, Customized)), ["p.yaml"] := Source(2, Document(10, Key(text)))],
                                  map[], {}, {Root})
  {
    var fs, s := CustomTree(text), OpenedRoot(Customized);
    assert Root[..0] == [] && |"configuration.yaml"| != |"p.yaml"|;
    SecondReads(fs.entries[0], fs.entries[1], "p.yaml");
    CustomOpens(text);
    CustomVisit(fs, s, text);
    hide ReadFile, Load, Visit, Acceptable, Opens;
    LoadCases(fs, NewScan, Root, 0, []);
  }

  lemma CustomOpens(text: string)
    ensures Opens(CustomTree(text), NewScan, Root, 0, []) && ReadFile(CustomTree(text), Root) == Found(YamlFile(1, Customized))
  {
    var fs := CustomTree(text);
    assert Root[..0] == [] && |"configuration.yaml"| != |"p.yaml"|;
    SecondReads(fs.entries[0], fs.entries[1], "p.yaml");
    hide Load, Visit;
  }

  lemma CustomVisit(fs: Fs, s: Scan, text: string)
    requires ReadFile(fs, ["p.yaml"]) == Found(YamlFile(2, Key(text))) && s.stack == {Root} && s.sources.Keys == {Root}
    requires s.loads == 1 && s.nodes == 0 && s.includes == 0 && s.totalBytes == 10 && s.events == 10 && s.done == {}
    ensures
      var r := Visit(fs, s, Customized, Root, 0, 1, []);
      && r.outcome.Ok? && r.scan.sources == s.sources[["p.yaml"] := Source(2, Document(10, Key(text)))]
      && r.scan.directories == s.directories && r.scan.secrets == s.secrets && r.scan.swallowed == s.swallowed
      && r.scan.grants == s.grants && r.scan.done == {(["p.yaml"], ["homeassistant", "customize"])}
  {
    var included, context := Scalar(Include, "p.yaml"), ["homeassistant", "customize"];
    hide Visit, ReadFile, Load;
    VisitSingle(fs, s, Key("homeassistant"), Single(Key("customize"), included), Root, 0, 1, []);
    VisitSingle(fs, s.(nodes := s.nodes + 2), Key("customize"), included, Root, 0, 2, ["homeassistant"]);
    assert [] + ["homeassistant"] == ["homeassistant"] && ["homeassistant"] + ["customize"] == context;
    IncludeVisit(fs, s.(nodes := s.nodes + 4), 3, context);
    assert Root != ["p.yaml"] by { assert |Root[0]| == 18 && |"p.yaml"| == 6; }
    CustomizeGrantsNothing();
    hide DefinesGrants;
    LoadScalarFile(fs, s.(nodes := s.nodes + 5, includes := 1), ["p.yaml"], 1, context, text, 2);
  }

  lemma CustomIsPlain()
    ensures RootNode(Customized)
  {
    var inner, outer := Pair(Key("customize"), Scalar(Include, "p.yaml")), Pair(Key("homeassistant"), Customized.pairs[0].value);
    assert Customized.pairs == [outer] && outer.value.pairs == [inner] && [inner][1..] == [] && [outer][1..] == [];
    assert SectionPair(inner) && SectionPairs([]) && RootPairs([]) by {
      assert |"customize"| == 9 && |"packages"| == 8 && |"allowlist_external_dirs"| == 23;
    }
    assert SectionPairs([inner]) && RootPair(outer) by { assert |"hapatchy"| == 8 && |"homeassistant"| == 13; }
    assert RootPairs([outer]);
  }

  lemma CustomAuthority(text: string, other: string)
    ensures
      var boot, now := Scanned(CustomTree(text)), Scanned(CustomTree(other));
      && boot.outcome.Ok? && now.outcome.Ok? && boot.scan.swallowed == {} && now.scan.swallowed == {}
      && GraphOf(now.scan).SameAuthorityAs(GraphOf(boot.scan)) && PlainGrants(boot.scan)
  {
    hide Scanned, RootNode, DefinesGrants;
    CustomScan(text);
    CustomScan(other);
    CustomIsPlain();
    assert !DefinesGrants(["homeassistant", "customize"]) by { CustomizeGrantsNothing(); }
    assert Root != ["p.yaml"] by { assert |Root[0]| == 18 && |"p.yaml"| == 6; }
  }

  lemma CustomizeGrantsNothing()
    ensures !DefinesGrants(["homeassistant", "customize"])
  {
    assert |"customize"| == 9 && |"packages"| == 8 && |"allowlist_external_dirs"| == 23;
  }

  /** An edit the theorem covers: the included file is no grant source, its text changes, and the grants stay. */
  lemma OrdinaryEditKeepsGrants(loader: Loader, text: string, other: string, fuel: nat)
    ensures
      var boot, now := CustomTree(text), CustomTree(other);
      && Scanned(boot).outcome.Ok? && Scanned(now).outcome.Ok? && PlainGrants(Scanned(boot).scan)
      && GraphOf(Scanned(now).scan).SameAuthorityAs(GraphOf(Scanned(boot).scan))
      && SameGrants(loader, Configuration(boot, fuel), Configuration(now, fuel))
  {
    hide Scanned, Configuration, SameGrants, PlainGrants, CustomTree, GraphOf;
    CustomAuthority(text, other);
    AuthorityFixesGrants(loader, CustomTree(text), CustomTree(other), fuel);
  }

  // ----- A missing include inside a secrets file

  /** [!include q.yaml, !include p.yaml] */
  const Secrets := Sequence(Yaml("seq"), [Scalar(Include, "q.yaml"), Scalar(Include, "p.yaml")])

  const SecretTree := Dir(0, [Entry("configuration.yaml", YamlFile(1, Scalar(Secret, "k"))), Entry("secrets.yaml", YamlFile(2, Secrets)),
                              Entry("p.yaml", YamlFile(3, Key("v")))])

  lemma FindThird(a: Entry, b: Entry, c: Entry, name: string)
    ensures Find([a, b, c], name) == if a.name == name then Some(a.node) else if b.name == name then Some(b.node)
                                     else if c.name == name then Some(c.node) else None
  {
    assert [a, b, c][1..] == [b, c] && [b, c][1..] == [c] && [c][1..] == [];
    assert Find([c], name) == if c.name == name then Some(c.node) else None;
    assert Find([b, c], name) == if b.name == name then Some(b.node) else Find([c], name);
  }

  lemma RootReads(fs: Fs, name: string)
    requires fs.Dir?
    ensures Descend(fs, [name][..|[name]| - 1]) == Some(fs)
  {
    assert [name][..0] == [];
  }

  lemma SecretReads()
    ensures ReadFile(SecretTree, Root) == Found(YamlFile(1, Scalar(Secret, "k")))
    ensures ReadFile(SecretTree, ["secrets.yaml"]) == Found(YamlFile(2, Secrets))
    ensures ReadFile(SecretTree, ["p.yaml"]) == Found(YamlFile(3, Key("v")))
    ensures ReadFile(SecretTree, ["q.yaml"]).Gone?
  {
    var e := SecretTree.entries;
    assert e == [e[0], e[1], e[2]];
    assert |"configuration.yaml"| == 18 && |"secrets.yaml"| == 12 && |"p.yaml"| == 6 && "p.yaml"[0] == 'p' &&
      "q.yaml"[0] == 'q';
    FindThird(e[0], e[1], e[2], "configuration.yaml");
    FindThird(e[0], e[1], e[2], "secrets.yaml");
    FindThird(e[0], e[1], e[2], "p.yaml");
    FindThird(e[0], e[1], e[2], "q.yaml");
    hide Find, Descend;
    RootReads(SecretTree, "configuration.yaml");
    RootReads(SecretTree, "secrets.yaml");
    RootReads(SecretTree, "p.yaml");
    RootReads(SecretTree, "q.yaml");
  }

  lemma GoneYaml()
    ensures Parts("q.yaml") == Some(["q.yaml"]) && GoodOperand("q.yaml")
  {
    hide Parts, GoodOperand;
    NameIsOperand("q.yaml");
  }

  /** The visit of the secrets file ends at the first include; what it names is gone. */
  lemma SecretsVisit(fs: Fs, s: Scan, nodeDepth: nat, context: Context)
    requires ReadFile(fs, ["q.yaml"]).Gone? && s.loads < MAX_LOADS && s.nodes + 2 <= MAX_NODES && nodeDepth < MAX_NODE_DEPTH
    requires s.includes < MAX_INCLUDES && ["q.yaml"] !in s.stack
    ensures Visit(fs, s, Secrets, ["secrets.yaml"], 0, nodeDepth, context) ==
            Progress(Missing, s.(nodes := s.nodes + 2, includes := s.includes + 1, loads := s.loads + 1))
  {
    hide ReadFile, Parts, GoodOperand;
    GoneYaml();
    var first, counted := Secrets.items[0], s.(nodes := s.nodes + 1);
    assert ["secrets.yaml"][..0] + ["q.yaml"] == ["q.yaml"];
    var begun := s.(nodes := s.nodes + 2, includes := s.includes + 1);
    assert Load(fs, begun, ["q.yaml"], 1, context) == Progress(Missing, begun.(loads := s.loads + 1)) by {
      LoadGone(fs, begun, ["q.yaml"], 1, context);
    }
    hide Load;
    assert Visit(fs, counted, first, ["secrets.yaml"], 0, nodeDepth + 1, context) == Progress(Missing, begun.(loads := s.loads + 1));
  }

  lemma LoadGone(fs: Fs, s: Scan, parts: Path, depth: nat, context: Context)
    requires ReadFile(fs, parts).Gone? && s.loads < MAX_LOADS && depth <= MAX_DEPTH && parts !in s.stack
    ensures Load(fs, s, parts, depth, context) == Progress(Missing, s.(loads := s.loads + 1))
  {
    hide ReadFile;
  }

  /** Loading it as a secrets file is Missing as well, although the file is there. */
  lemma SecretsLoad(fs: Fs, s: Scan)
    requires ReadFile(fs, ["secrets.yaml"]) == Found(YamlFile(2, Secrets)) && ReadFile(fs, ["q.yaml"]).Gone?
    requires s.loads == 1 && s.nodes <= 10 && s.includes == 0 && s.stack == {Root} && s.sources.Keys == {Root}
    requires s.totalBytes == 10 && s.events == 10
    ensures
      var r := Load(fs, s, ["secrets.yaml"], 0, []);
      && r.outcome.Missing? && r.scan.sources == s.sources[["secrets.yaml"] := Source(2, Document(10, Secrets))]
      && r.scan.directories == s.directories && r.scan.secrets == s.secrets
  {
    hide ReadFile, Load, Visit;
    assert Root != ["secrets.yaml"] && Root != ["q.yaml"] && ["secrets.yaml"] != ["q.yaml"] by {
      assert |Root[0]| == 18 && |"secrets.yaml"| == 12 && |"q.yaml"| == 6;
    }
    LoadCases(fs, s, ["secrets.yaml"], 0, []);
    assert Opens(fs, s, ["secrets.yaml"], 0, []);
    SecretsVisit(fs, Opened(s, ["secrets.yaml"], YamlFile(2, Secrets), []), 1, []);
  }

  /**
   A missing include inside a secrets file is taken for a missing secrets file: the scan succeeds, and a file
   the secrets file goes on to load is not protected.
   */
  lemma IgnoredIncludeEscapes()
    ensures Scanned(SecretTree).outcome.Ok?
    ensures Chain(SecretTree, [(Root, []), (["secrets.yaml"], []), (["p.yaml"], [])])
    ensures !GraphOf(Scanned(SecretTree).scan).ProtectsPath(["p.yaml"])
  {
    SecretScan();
    SecretChain();
    hide Scanned, Chain;
  }

  lemma SecretCandidate(fs: Fs, s: Scan)
    requires ReadFile(fs, ["secrets.yaml"]) == Found(YamlFile(2, Secrets)) && ReadFile(fs, ["q.yaml"]).Gone?
    requires s.loads == 1 && s.nodes == 0 && s.includes == 0 && s.stack == {Root} && s.sources.Keys == {Root}
    requires s.totalBytes == 10 && s.events == 10 && s.secrets == {}
    ensures
      var r := Visit(fs, s, Scalar(Secret, "k"), Root, 0, 1, []);
      && r.outcome.Ok? && r.scan.sources == s.sources[["secrets.yaml"] := Source(2, Document(10, Secrets))]
      && r.scan.directories == s.directories && r.scan.secrets == {["secrets.yaml"]}
  {
    hide Load, ReadFile;
    var begun := s.(nodes := 1, secrets := {["secrets.yaml"]});
    var parent: Path := [];
    assert Root[..0] == parent && parent[..0] + ["secrets.yaml"] == ["secrets.yaml"];
    assert s.secrets + {["secrets.yaml"]} == {["secrets.yaml"]};
    SecretsLoad(fs, begun);
    assert SecretCandidates(fs, s.(nodes := 1), parent, 0, []).scan.sources == Load(fs, begun, ["secrets.yaml"], 0, []).scan.sources;
    assert Visit(fs, s, Scalar(Secret, "k"), Root, 0, 1, []) == SecretCandidates(fs, s.(nodes := 1), parent, 0, []);
  }

  lemma SecretScan()
    ensures
      var r := Scanned(SecretTree);
      && r.outcome.Ok? && r.scan.sources.Keys == {Root, ["secrets.yaml"]}
      && r.scan.directories == map[] && r.scan.secrets == {["secrets.yaml"]}
      && ["p.yaml"] !in {Root, ["secrets.yaml"]}
  {
    SecretReads();
    hide ReadFile;
    LoadCases(SecretTree, NewScan, Root, 0, []);
    assert Opens(SecretTree, NewScan, Root, 0, []);
    assert |Root[0]| == 18 && |"secrets.yaml"| == 12 && |"p.yaml"| == 6;
    hide Load, Visit;
    SecretCandidate(SecretTree, Opened(NewScan, Root, YamlFile(1, Scalar(Secret, "k")), []));
  }

  lemma SecretChain()
    ensures Chain(SecretTree, [(Root, []), (["secrets.yaml"], []), (["p.yaml"], [])])
  {
    SecretReads();
    PYaml();
    hide ReadFile, Parts;
    var chain: seq<(Path, Context)> := [(Root, []), (["secrets.yaml"], []), (["p.yaml"], [])];
    assert SecretRef([], []) in DocumentRefs(Document(10, Scalar(Secret, "k")), Root, []) by { assert Root[..0] == []; }
    assert Targets(SecretTree, SecretRef([], []), chain[1]) by {
      var parent: Path := [];
      assert parent[..0] + ["secrets.yaml"] == ["secrets.yaml"];
    }
    assert Loads(SecretTree, chain[0], chain[1]);
    SecretsRefs();
    assert Targets(SecretTree, FileRef(["p.yaml"], []), chain[2]);
    assert Loads(SecretTree, chain[1], chain[2]);
  }

  lemma SecretsRefs()
    ensures FileRef(["p.yaml"], []) in DocumentRefs(Document(10, Secrets), ["secrets.yaml"], [])
  {
    PYaml();
    hide Parts;
    var items := Secrets.items;
    assert items[1..] == [items[1]] && ["secrets.yaml"][..0] + ["p.yaml"] == ["p.yaml"];
    assert FileRef(["p.yaml"], []) in Refs(items[1], ["secrets.yaml"], []);
    assert FileRef(["p.yaml"], []) in ItemRefs([items[1]], ["secrets.yaml"], []);
    assert ItemRefs(items, ["secrets.yaml"], []) == Refs(items[0], ["secrets.yaml"], []) + ItemRefs(items[1..], ["secrets.yaml"], []);
  }

  // ----- A directory included by names below the root

  /** homeassistant: !include_dir_named ha, with {pkg: !include p.yml} in ha/packages.yaml */
  const Naming := Single(Key("homeassistant"), Scalar(DirNamed, "ha"))

  const Packages := Single(Key("pkg"), Scalar(Include, "p.yml"))

  function NamedDir(text: string): Fs {
    Dir(2, [Entry("packages.yaml", YamlFile(3, Packages)), Entry("p.yml", YamlFile(4, Key(text)))])
  }

  function NamedTree(text: string): Fs {
    Dir(0, [Entry("configuration.yaml", YamlFile(1, Naming)), Entry("ha", NamedDir(text))])
  }

  lemma NamedReads(text: string)
    ensures ReadFile(NamedTree(text), Root) == Found(YamlFile(1, Naming))
    ensures OpenDirectory(NamedTree(text), ["ha"]) == Found(NamedDir(text))
    ensures ReadFile(NamedTree(text), ["ha", "packages.yaml"]) == Found(YamlFile(3, Packages))
    ensures ReadFile(NamedTree(text), ["ha", "p.yml"]) == Found(YamlFile(4, Key(text)))
  {
    var fs, dir := NamedTree(text), NamedDir(text);
    assert Root[..0] == [] && ["ha"][..0] == [];
    assert |"configuration.yaml"| == 18 && |"ha"| == 2 && |"packages.yaml"| == 13 && |"p.yml"| == 5;
    FindSecond(fs.entries[0], fs.entries[1], "ha");
    FindSecond(dir.entries[0], dir.entries[1], "p.yml");
    InHa(fs, dir, "packages.yaml");
    InHa(fs, dir, "p.yml");
  }

  lemma InHa(fs: Fs, dir: Fs, name: string)
    requires fs.Dir? && dir.Dir? && Find(fs.entries, "ha") == Some(dir)
    ensures Descend(fs, ["ha", name][..1]) == Some(dir)
  {
    hide Find;
    assert ["ha", name][..1] == ["ha"] && ["ha"][1..] == [];
  }

  lemma HaOperand()
    ensures Parts("ha") == Some(["ha"]) && GoodOperand("ha") && Parts("p.yml") == Some(["p.yml"]) && GoodOperand("p.yml")
  {
    NameIsOperand("p.yml");
    UpToIs("ha", "ha", '/');
    assert Split("ha", '/') == ["ha"];
  }

  lemma HaNames()
    ensures YamlName("packages.yaml") && !YamlName("p.yml") && "packages.yaml"[0] != '.' && "p.yml"[0] != '.'
  {
    assert "packages.yaml"[8..] == ".yaml" && "p.yml"[0..] == "p.yml" && "p.yml"[0] != '.';
    assert |"packages.yaml"| == 13 && |"secrets.yaml"| == 12;
  }

  /** One visible file of a directory. */
  lemma WalkFile(dir: Fs, e: Entry, scope: Path, w: Walk)
    requires dir.Dir? && e in dir.entries && e.node.File? && e.node.single && e.name != "" && e.name[0] != '.'
    requires w.entries < MAX_ENTRIES
    ensures
      WalkEntry(dir, e, scope, [], w) ==
      Some(if YamlName(e.name) then Walk(w.directories, w.entries + 1, w.inventory + {[e.name]}, w.files + [scope + [e.name]])
           else w.(entries := w.entries + 1))
  {
    hide YamlName;
    var relative: Path := [];
    assert relative + [e.name] == [e.name] && scope + relative + [e.name] == scope + [e.name];
  }

  lemma {:induction false} WalkTwo(dir: Fs, a: Entry, b: Entry, scope: Path, w: Walk, one: Walk, two: Walk)
    requires dir.Dir? && dir.entries == [a, b]
    requires WalkEntry(dir, a, scope, [], w) == Some(one) && WalkEntry(dir, b, scope, [], one) == Some(two)
    ensures WalkEntries(dir, dir.entries, scope, [], w) == Some(two)
  {
    hide WalkEntry;
    assert [a, b][1..] == [b] && [b][1..] == [];
    assert WalkEntries(dir, [b], scope, [], one) == Some(two);
  }

  lemma NamedWalk(text: string)
    ensures WalkDirectory(NamedDir(text), ["ha"], [], Walk(0, 0, {}, [])) ==
            Some(Walk(1, 2, {["packages.yaml"]}, [["ha", "packages.yaml"]]))
  {
    var dir := NamedDir(text);
    var first, second := dir.entries[0], dir.entries[1];
    HaNames();
    hide YamlName, WalkEntry, WalkEntries;
    var begun, one := Walk(1, 0, {}, []), Walk(1, 1, {["packages.yaml"]}, [["ha", "packages.yaml"]]);
    WalkFile(dir, first, ["ha"], begun);
    assert begun.inventory + {["packages.yaml"]} == one.inventory;
    assert ["ha"] + ["packages.yaml"] == ["ha", "packages.yaml"];
    assert begun.files + [["ha", "packages.yaml"]] == one.files;
    WalkFile(dir, second, ["ha"], one);
    WalkTwo(dir, first, second, ["ha"], begun, one, one.(entries := 2));
  }

  /** The file in the directory is a grant source; the one it includes is not. */
  lemma PackagesLoad(fs: Fs, s: Scan, text: string)
    requires ReadFile(fs, ["ha", "packages.yaml"]) == Found(YamlFile(3, Packages)) &&
      ReadFile(fs, ["ha", "p.yml"]) == Found(YamlFile(4, Key(text)))
    requires s.stack == {Root} && s.sources.Keys == {Root} && s.loads == 1 && s.nodes <= 10 && s.includes <= 10
    requires s.totalBytes == 10 && s.events == 10
    ensures
      var r := Load(fs, s, ["ha", "packages.yaml"], 1, ["homeassistant"]);
      && r.outcome.Ok? && r.scan.directories == s.directories && r.scan.secrets == s.secrets && r.scan.swallowed == s.swallowed
      && r.scan.sources == s.sources[["ha", "packages.yaml"] := Source(3, Document(10, Packages))][["ha", "p.yml"] := Source(4, Document(10, Key(text)))]
      && r.scan.grants == s.grants + {["ha", "packages.yaml"]}
  {
    hide ReadFile;
    assert |Root| == 1 && |["ha", "packages.yaml"]| == 2;
    LoadCases(fs, s, ["ha", "packages.yaml"], 1, ["homeassistant"]);
    assert Opens(fs, s, ["ha", "packages.yaml"], 1, ["homeassistant"]);
    var begun := Opened(s, ["ha", "packages.yaml"], YamlFile(3, Packages), ["homeassistant"]);
    PackagesVisit(fs, begun, text);
    hide Load, Visit;
  }

  lemma PackagePaths()
    ensures ["ha", "p.yml"] != ["ha", "packages.yaml"] && ["ha", "p.yml"] != Root && !DefinesGrants(["homeassistant", "pkg"])
  {
    assert |"packages.yaml"| == 13 && |"p.yml"| == 5 && |Root| == 1;
    assert ["ha", "p.yml"][1] == "p.yml" && ["ha", "packages.yaml"][1] == "packages.yaml";
    assert |"pkg"| == 3 && |"packages"| == 8 && |"allowlist_external_dirs"| == 23;
  }

  lemma PackagesVisit(fs: Fs, s: Scan, text: string)
    requires ReadFile(fs, ["ha", "p.yml"]) == Found(YamlFile(4, Key(text)))
    requires s.stack == {Root, ["ha", "packages.yaml"]} && s.sources.Keys == s.stack && s.loads == 2 &&
      s.nodes <= 10 && s.includes <= 10
    requires s.totalBytes == 20 && s.events == 20
    ensures
      var r := Visit(fs, s, Packages, ["ha", "packages.yaml"], 1, 1, ["homeassistant"]);
      && r.outcome.Ok? && r.scan.directories == s.directories && r.scan.secrets == s.secrets && r.scan.swallowed == s.swallowed
      && r.scan.sources == s.sources[["ha", "p.yml"] := Source(4, Document(10, Key(text)))] && r.scan.grants == s.grants
  {
    hide Load, ReadFile, Visit, Parts, GoodOperand;
    var included, context := Scalar(Include, "p.yml"), ["homeassistant", "pkg"];
    VisitSingle(fs, s, Key("pkg"), included, ["ha", "packages.yaml"], 1, 1, ["homeassistant"]);
    assert ["homeassistant"] + ["pkg"] == context && ["ha", "packages.yaml"][..1] + ["p.yml"] == ["ha", "p.yml"];
    PackagePaths();
    hide DefinesGrants, Root;
    HaOperand();
    NamedInclude(fs, s.(nodes := s.nodes + 2), context);
    assert |s.sources.Keys + {["ha", "p.yml"]}| <= 3;
    LoadScalarFile(fs, s.(nodes := s.nodes + 3, includes := s.includes + 1), ["ha", "p.yml"], 2, context, text, 4);
  }

  lemma NamedInclude(fs: Fs, s: Scan, context: Context)
    requires s.loads <= MAX_LOADS && s.nodes < MAX_NODES && s.includes < MAX_INCLUDES
    ensures Visit(fs, s, Scalar(Include, "p.yml"), ["ha", "packages.yaml"], 1, 2, context) ==
            Load(fs, s.(nodes := s.nodes + 1, includes := s.includes + 1), ["ha", "p.yml"], 2, context)
  {
    hide Load, Parts, GoodOperand;
    HaOperand();
    assert ["ha", "packages.yaml"][..1] + ["p.yml"] == ["ha", "p.yml"];
    var n, counted := Scalar(Include, "p.yml"), s.(nodes := s.nodes + 1);
    assert VisitTag(fs, counted, n, ["ha", "packages.yaml"], 1, context) ==
           Load(fs, s.(nodes := s.nodes + 1, includes := s.includes + 1), ["ha", "p.yml"], 2, context);
    hide VisitTag;
  }

  lemma NamedVisit(fs: Fs, s: Scan, text: string)
    requires fs == NamedTree(text) && s == OpenedRoot(Naming)
    ensures
      var r := Visit(fs, s, Naming, Root, 0, 1, []);
      && r.outcome.Ok? && r.scan.directories == map[["ha"] := Scope(2, {["packages.yaml"]})] &&
        r.scan.secrets == {} && r.scan.swallowed == {}
      && r.scan.sources == s.sources[["ha", "packages.yaml"] := Source(3, Document(10, Packages))][["ha", "p.yml"] := Source(4, Document(10, Key(text)))]
      && r.scan.grants == {Root, ["ha", "packages.yaml"]}
  {
    hide Load, ReadFile, OpenDirectory, Visit, Parts, GoodOperand, WalkDirectory;
    NamedReads(text);
    VisitSingle(fs, s, Key("homeassistant"), Scalar(DirNamed, "ha"), Root, 0, 1, []);
    assert [] + ["homeassistant"] == ["homeassistant"];
    NamedTag(fs, s.(nodes := 2));
    NamedWalk(text);
    var counted := s.(nodes := 3, includes := 1);
    var scoped := counted.(directoriesSeen := 1, entries := 2, directories := map[["ha"] := Scope(2, {["packages.yaml"]})]);
    PackagesLoad(fs, scoped, text);
    OneFile(fs, scoped, ["ha", "packages.yaml"], 1, ["homeassistant"]);
  }

  lemma OneFile(fs: Fs, s: Scan, file: Path, depth: nat, context: Context)
    requires s.loads <= MAX_LOADS && Load(fs, s, file, depth, context).outcome.Ok?
    ensures LoadAll(fs, s, [file], depth, context) == Load(fs, s, file, depth, context)
  {
    hide Load;
    assert [file][1..] == [];
  }

  lemma NamedTag(fs: Fs, s: Scan)
    requires s.loads <= MAX_LOADS && s.nodes < MAX_NODES && s.includes < MAX_INCLUDES
    ensures Visit(fs, s, Scalar(DirNamed, "ha"), Root, 0, 2, ["homeassistant"]) ==
            IncludeDirectory(fs, s.(nodes := s.nodes + 1, includes := s.includes + 1), ["ha"], 1, ["homeassistant"])
  {
    hide IncludeDirectory, Parts, GoodOperand;
    HaOperand();
    assert Root[..0] + ["ha"] == ["ha"];
    var n, counted := Scalar(DirNamed, "ha"), s.(nodes := s.nodes + 1);
    assert VisitTag(fs, counted, n, Root, 0, ["homeassistant"]) ==
           IncludeDirectory(fs, s.(nodes := s.nodes + 1, includes := s.includes + 1), ["ha"], 1, ["homeassistant"]);
    hide VisitTag;
  }

  lemma NamedScan(text: string)
    ensures
      var r := Scanned(NamedTree(text));
      && r.outcome.Ok? && r.scan.swallowed == {}
      && GraphOf(r.scan) ==
         Graph(map[Root := Source(1, Document(10, Naming)), ["ha", "packages.yaml"] := Source(3, Document(10, Packages)),
                   ["ha", "p.yml"] := Source(4, Document(10, Key(text)))],
               map[["ha"] := Scope(2, {["packages.yaml"]})], {}, {Root, ["ha", "packages.yaml"]})
  {
    var fs, s := NamedTree(text), OpenedRoot(Naming);
    NamedReads(text);
    hide ReadFile, OpenDirectory;
    LoadCases(fs, NewScan, Root, 0, []);
    assert Opens(fs, NewScan, Root, 0, []);
    NamedVisit(fs, s, text);
    hide Load, Visit;
  }

  lemma NamedListing(text: string)
    ensures Listing(NamedDir(text)) == {["packages.yaml"]}
  {
    var dir := NamedDir(text);
    assert YamlName("packages.yaml") && !YamlName("p.yml") by {
      assert "packages.yaml"[8..] == ".yaml" && "p.yml"[0..] == "p.yml" && |"packages.yaml"| == 13 && |"secrets.yaml"| == 12;
    }
    hide YamlName;
    assert "packages.yaml"[0] == 'p' && dir.entries[1..] == [dir.entries[1]] && [dir.entries[1]][1..] == [];
    assert ListEntries([dir.entries[1]]) == {};
    assert ListEntry(dir.entries[0]) == {["packages.yaml"]};
    assert ListEntries(dir.entries) == ListEntry(dir.entries[0]) + ListEntries([dir.entries[1]]);
  }

  lemma EvalPackages(fs: Fs, text: string, fuel: nat)
    requires ReadFile(fs, ["ha", "packages.yaml"]) == Found(YamlFile(3, Packages)) &&
      ReadFile(fs, ["ha", "p.yml"]) == Found(YamlFile(4, Key(text)))
    requires fuel >= 2
    ensures EvalFile(fs, ["ha", "packages.yaml"], fuel) == Dict([Item(Text(Yaml("str"), "pkg"), Text(Yaml("str"), text))])
  {
    hide ReadFile, Eval, Parts;
    HaOperand();
    var current, included := ["ha", "packages.yaml"], Scalar(Include, "p.yml");
    EvalScalarFile(fs, ["ha", "p.yml"], text, 4, fuel - 1);
    assert current[..1] + ["p.yml"] == ["ha", "p.yml"];
    EvalSingle(fs, Key("pkg"), included, current, fuel - 1);
    EvalTagged(fs, included, current, fuel - 1);
    assert EvalFile(fs, current, fuel) == EvalContent(fs, Document(10, Packages), current, fuel - 1);
    hide EvalFile;
  }

  lemma EvalTagged(fs: Fs, n: Node, current: Path, fuel: nat)
    requires current != [] && !n.tag.Yaml?
    ensures Eval(fs, n, current, fuel) == EvalTag(fs, n, current, fuel)
  {
  }

  lemma OneNamedFile(loader: Loader, v: Value, f: Path)
    requires v.Files? && v.tag.DirNamed? && v.values.Keys == {f} && loader.order({f}) == [f] && f == ["packages.yaml"]
    ensures Lookup(loader, v, "packages") == Some(v.values[f])
  {
    assert "packages.yaml"[..8] == "packages" && |"packages.yaml"| == 13;
    assert Stem(f) == "packages";
    assert InFiles(loader, v, [f], StrKey("packages")) == Some(v.values[f]);
  }

  lemma NamedPackages(loader: Loader, text: string, fuel: nat)
    requires fuel >= 3 && loader.order({["packages.yaml"]}) == [["packages.yaml"]]
    ensures
      var section := Lookup(loader, Configuration(NamedTree(text), fuel), "homeassistant");
      && section.Some?
      && Lookup(loader, section.value, "packages") == Some(Dict([Item(Text(Yaml("str"), "pkg"), Text(Yaml("str"), text))]))
  {
    hide ReadFile, Eval, Parts, Listing, OpenDirectory;
    var fs, dir, named := NamedTree(text), NamedDir(text), Scalar(DirNamed, "ha");
    NamedReads(text);
    NamedListing(text);
    HaOperand();
    EvalPackages(fs, text, fuel - 1);
    EvalSingle(fs, Key("homeassistant"), named, Root, fuel - 1);
    EvalTagged(fs, named, Root, fuel - 1);
    assert Root[..0] + ["ha"] == ["ha"] && ["ha"] + ["packages.yaml"] == ["ha", "packages.yaml"] &&
      "packages" + ".yaml" == "packages.yaml";
    assert EvalFile(fs, Root, fuel) == EvalContent(fs, Document(10, Naming), Root, fuel - 1);
    hide EvalFile;
    var section := EvalDirectory(fs, DirNamed, ["ha"], fuel - 1);
    OneNamedFile(loader, section, ["packages.yaml"]);
    LookupSingle(loader, Text(Yaml("str"), "homeassistant"), section, "homeassistant");
  }

  lemma NamedAuthority()
    ensures
      var boot, now := Scanned(NamedTree("a")), Scanned(NamedTree("b"));
      boot.outcome.Ok? && now.outcome.Ok? && GraphOf(now.scan).SameAuthorityAs(GraphOf(boot.scan))
  {
    hide Scanned;
    NamedScan("a");
    NamedScan("b");
    assert ["ha", "p.yml"] !in {Root, ["ha", "packages.yaml"]} by {
      assert |Root| == 1 && |"packages.yaml"| == 13 && |"p.yml"| == 5;
      assert ["ha", "p.yml"][1] == "p.yml" && ["ha", "packages.yaml"][1] == "packages.yaml";
    }
  }

  /**
   A directory included by names in the place of `homeassistant`: the same authority, different packages. Its
   file names are keys the scan does not add to the context.
   */
  lemma NamedDirectoryEscapes(loader: Loader, fuel: nat)
    requires fuel >= 3 && loader.order({["packages.yaml"]}) == [["packages.yaml"]]
    ensures
      var boot, now := NamedTree("a"), NamedTree("b");
      && Scanned(boot).outcome.Ok? && Scanned(now).outcome.Ok?
      && GraphOf(Scanned(now).scan).SameAuthorityAs(GraphOf(Scanned(boot).scan))
      && !SameGrants(loader, Configuration(boot, fuel), Configuration(now, fuel))
  {
    hide Scanned, Configuration, Lookup, NamedTree, GraphOf;
    NamedAuthority();
    NamedPackages(loader, "a", fuel);
    NamedPackages(loader, "b", fuel);
  }
}
