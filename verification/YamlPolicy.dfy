/**
 Grants frozen at startup: read from the configuration once, and in force only while the scan's authority lasts.

 The check of the section's syntax before loading is not part of this model.
 */
module YamlPolicy {
  import opened Models
  import opened PatchParser
  import Definitions
  import opened SourceGraph
  import opened ScanSafety
  import opened GrantSafety

  const MAX_GRANTS: nat := 128
  const MAX_GRANT_LENGTH: nat := 1024

  // ----- One list of grants

  /** A relative path with at least so many parts and no glob characters. */
  predicate ValidEntry(v: Value, parts: nat) {
    && v.Text? && v.tag == Yaml("str") && |v.text| <= MAX_GRANT_LENGTH
    && Definitions.RelativePath(v.text).Success? && |Split(v.text, '/')| >= parts
    && forall c | c in v.text :: c != '*' && c != '?' && c != '[' && c != ']'
  }

  predicate Distinct(paths: seq<string>) {
    forall i, j | 0 <= i < j < |paths| :: paths[i] != paths[j]
  }

  /** Exactly these texts, all valid and no two the same. */
  predicate AreEntries(elements: seq<Value>, parts: nat, paths: seq<string>) {
    && |paths| == |elements| && Distinct(paths)
    && forall i | 0 <= i < |elements| :: ValidEntry(elements[i], parts) && elements[i].text == paths[i]
  }

  function Entries(v: Option<Value>, parts: nat): Option<seq<string>> {
    if v.None? then Some([])
    else if !v.value.List? || |v.value.elements| > MAX_GRANTS then None
    else Collect(v.value.elements, parts)
  }

  function Collect(elements: seq<Value>, parts: nat): Option<seq<string>> {
    if elements == [] then Some([])
    else
      var last := elements[|elements| - 1];
      var before := Collect(elements[..|elements| - 1], parts);
      if before.None? || !ValidEntry(last, parts) || last.text in before.value then None
      else Some(before.value + [last.text])
  }

  /** A list is accepted exactly when all its entries are valid and distinct, and then comes out as written. */
  lemma {:induction false} CollectsEntries(elements: seq<Value>, parts: nat)
    ensures Collect(elements, parts).Some? ==> AreEntries(elements, parts, Collect(elements, parts).value)
    ensures (exists paths :: AreEntries(elements, parts, paths)) ==> Collect(elements, parts).Some?
  {
    hide ValidEntry;
    if elements != [] {
      var init, n := elements[..|elements| - 1], |elements| - 1;
      CollectsEntries(init, parts);
      if exists paths :: AreEntries(elements, parts, paths) {
        var paths :| AreEntries(elements, parts, paths);
        assert AreEntries(init, parts, paths[..n]);
        SameEntries(init, parts, paths[..n], Collect(init, parts).value);
        ValidIsText(elements[n], parts);
        assert elements[n].text == paths[n] && paths[n] !in paths[..n];
      }
    }
  }

  lemma SameEntries(elements: seq<Value>, parts: nat, a: seq<string>, b: seq<string>)
    requires AreEntries(elements, parts, a) && AreEntries(elements, parts, b)
    ensures a == b
  {
    hide ValidEntry;
  }

  /** A setting of entries is read exactly when it is left out or such a list, of at most so many. */
  lemma EntriesExactly(v: Option<Value>, parts: nat, paths: seq<string>)
    ensures Entries(v, parts) == Some(paths) <==>
            if v.None? then paths == []
            else v.value.List? && |v.value.elements| <= 128 && AreEntries(v.value.elements, parts, paths)
  {
    if v.Some? && v.value.List? {
      var elements := v.value.elements;
      CollectsEntries(elements, parts);
      if AreEntries(elements, parts, paths) {
        SameEntries(elements, parts, paths, Collect(elements, parts).value);
      }
    }
    hide AreEntries, Collect;
  }

  /** An entry is valid exactly when it is a string of names, enough of them, unprotected and without glob characters. */
  lemma EntryExactly(v: Value, parts: nat)
    ensures ValidEntry(v, parts) <==>
            && v.Text? && v.tag == Yaml("str") && |v.text| <= 1024
            && (forall c | c in v.text :: c !in "*?[]")
            && exists names :: |names| >= parts && Definitions.Unprotected(names) && v.text == Definitions.Joined(names) &&
                               forall name | name in names :: Definitions.PlainPart(name)
  {
    if v.Text? {
      Definitions.TargetPaths(v.text);
      if Definitions.RelativePath(v.text).Success? {
        Definitions.RelativeIsSafe(v.text);
        Definitions.SafeIsPlain(v.text);
      }
      hide Definitions.RelativePath, Definitions.Joined, Definitions.PlainPart;
      forall names | Definitions.Unprotected(names) && v.text == Definitions.Joined(names) && forall name | name in names :: Definitions.PlainPart(name)
        ensures Split(v.text, '/') == names
      {
        Definitions.PlainIsSafe(names);
      }
      if Definitions.RelativePath(v.text).Success? {
        UnprotectedParts(v.text);
      }
    }
  }

  lemma UnprotectedParts(path: string)
    requires Definitions.RelativePath(path).Success?
    ensures Definitions.Unprotected(Split(path, '/'))
  {
    Definitions.SplitHasPieces(path);
    hide Split;
  }

  /** The check of one list, entry by entry, with the duplicates looked for at the end. */
  method ValidateEntries(v: Option<Value>, parts: nat) returns (checked: Option<seq<string>>)
    ensures checked == Entries(v, parts)
  {
    if v.None? {
      return Some([]);
    }
    if !v.value.List? || |v.value.elements| > MAX_GRANTS {
      return None;
    }
    hide ValidEntry;
    var elements := v.value.elements;
    var paths: seq<string> := [];
    for i := 0 to |elements|
      invariant |paths| == i
      invariant forall j | 0 <= j < i :: ValidEntry(elements[j], parts) && elements[j].Text? && elements[j].text == paths[j]
    {
      CollectsEntries(elements, parts);
      if !ValidEntry(elements[i], parts) {
        return None;
      }
      assert elements[i].Text? by { ValidIsText(elements[i], parts); }
      paths := paths + [elements[i].text];
    }
    CollectsEntries(elements, parts);
    assert Distinct(paths) ==> AreEntries(elements, parts, paths);
    CollectedAre(elements, parts, paths);
    checked := if Distinct(paths) then Some(paths) else None;
  }

  /** Whatever is collected is the list of the texts, and distinct. */
  lemma CollectedAre(elements: seq<Value>, parts: nat, paths: seq<string>)
    requires |paths| == |elements| && forall i | 0 <= i < |elements| :: elements[i].Text? && elements[i].text == paths[i]
    ensures Collect(elements, parts).Some? ==> Collect(elements, parts).value == paths && Distinct(paths)
  {
    hide ValidEntry, Collect;
    CollectsEntries(elements, parts);
  }

  lemma ValidIsText(v: Value, parts: nat)
    requires ValidEntry(v, parts)
    ensures v.Text?
  {
  }

  // ----- The section, the allowed directories, the packages

  /** File grants, and the entries of the older directory grants, which grant nothing any more. */
  datatype Grants = Grants(files: seq<string>, directories: seq<string>)

  predicate OnlyKeys(items: seq<Item>, keys: set<string>) {
    forall item | item in items :: item.key.Text? && item.key.tag == Yaml("str") && item.key.text in keys
  }

  /** The section is written out: its syntax was checked before, so it comes from no directory and no secret. */
  function ValidGrants(loader: Loader, section: Value): Option<Grants> {
    if !section.Dict? || section.items == [] || !OnlyKeys(section.items, {"allowed_files", "allowed_directories"}) then None
    else
      var files, directories := Entries(Lookup(loader, section, "allowed_files"), 2), Entries(Lookup(loader, section, "allowed_directories"), 1);
      if files.None? || directories.None? then None else Some(Grants(files.value, directories.value))
  }

  method ValidateHapatchyGrants(loader: Loader, section: Value) returns (grants: Option<Grants>)
    ensures grants == ValidGrants(loader, section)
  {
    hide Entries, Lookup;
    if !section.Dict? || section.items == [] || !OnlyKeys(section.items, {"allowed_files", "allowed_directories"}) {
      return None;
    }
    var files := ValidateEntries(Lookup(loader, section, "allowed_files"), 2);
    if files.None? {
      return None;
    }
    var directories := ValidateEntries(Lookup(loader, section, "allowed_directories"), 1);
    if directories.None? {
      return None;
    }
    grants := Some(Grants(files.value, directories.value));
  }

  /** The elements of a list: written out, or from the files of a directory; empty files are passed over. */
  function Elements(loader: Loader, v: Value): Option<seq<Value>>
    decreases v, 0
  {
    if v.List? then Some(v.elements)
    else if v.Files? && (v.tag.DirList? || v.tag.DirMergeList?) then Some(FromFiles(loader, v, loader.order(v.values.Keys)))
    else None
  }

  function FromFiles(loader: Loader, v: Value, files: seq<Path>): seq<Value>
    requires v.Files?
    decreases v, 0, |files|
  {
    if files == [] then []
    else
      var rest := FromFiles(loader, v, files[1..]);
      if files[0] !in v.values || v.values[files[0]].Null? then rest
      else if v.tag.DirList? then [v.values[files[0]]] + rest
      else
        var merged := Elements(loader, v.values[files[0]]);
        (if merged.Some? then merged.value else []) + rest
  }

  /** The first secrets file, from the nearest to the root, that has this secret. */
  function Secret(loader: Loader, name: string, candidates: seq<Value>): Option<Value> {
    if candidates == [] then None
    else if Lookup(loader, candidates[0], name).Some? then Lookup(loader, candidates[0], name)
    else Secret(loader, name, candidates[1..])
  }

  /** A string: written out, from the environment, or from a secrets file. */
  function StringOf(loader: Loader, v: Value): Option<string> {
    if v.Text? then
      if v.tag == Yaml("str") then Some(v.text)
      else if v.tag.EnvVar? then loader.environment(v.text)
      else None
    else if v.SecretOf? then
      var secret := Secret(loader, v.name, v.candidates);
      if secret.Some? && secret.value.Text? && secret.value.tag == Yaml("str") then Some(secret.value.text) else None
    else None
  }

  function Strings(loader: Loader, elements: seq<Value>): Option<seq<string>> {
    if elements == [] then Some([])
    else
      var first, rest := StringOf(loader, elements[0]), Strings(loader, elements[1..]);
      if first.None? || rest.None? then None else Some([first.value] + rest.value)
  }

  /** Home Assistant's own allowed directories, when it has any. */
  function ExplicitAllowlist(loader: Loader, document: Value): Option<seq<string>> {
    var homeassistant := Lookup(loader, document, "homeassistant");
    if homeassistant.None? then Some([])
    else if !IsMapping(homeassistant.value) then None
    else
      var directories := Lookup(loader, homeassistant.value, "allowlist_external_dirs");
      if directories.None? then Some([])
      else
        var elements := Elements(loader, directories.value);
        if elements.None? then None else Strings(loader, elements.value)
  }

  /** A package is a mapping without a section of its own. */
  predicate QuietPackage(loader: Loader, package: Value) {
    IsMapping(package) && Lookup(loader, package, "hapatchy").None?
  }

  /** Every value of a mapping of packages. */
  ghost predicate Quiet(loader: Loader, packages: Value) {
    && IsMapping(packages)
    && forall key | !IsMerge(key) && At(loader, packages, key).Some? :: QuietPackage(loader, At(loader, packages, key).value)
  }

  /** No package brings a section of its own. */
  ghost predicate PackagesAreQuiet(loader: Loader, document: Value) {
    var homeassistant := Lookup(loader, document, "homeassistant");
    homeassistant.Some? ==>
      && IsMapping(homeassistant.value)
      && var packages := Lookup(loader, homeassistant.value, "packages");
         packages.Some? ==> Quiet(loader, packages.value)
  }

  /** The grants of a whole document: none without a section. */
  function SectionGrants(loader: Loader, document: Value): Option<Grants> {
    var section := Lookup(loader, document, "hapatchy");
    if section.None? then Some(Grants([], [])) else ValidGrants(loader, section.value)
  }

  // ----- Packages from a directory included by names

  /** A file of such a directory is the package of its name, when no later file takes the name. */
  lemma {:induction false} NamedFile(loader: Loader, v: Value, files: seq<Path>, f: Path)
    requires v.Files? && v.tag.DirNamed? && f in files && f in v.values
    requires forall g | g in files && g in v.values && Stem(g) == Stem(f) :: g == f
    ensures InFiles(loader, v, files, StrKey(Stem(f))) == Some(v.values[f])
    decreases |files|
  {
    hide Stem;
    var last, before := files[|files| - 1], files[..|files| - 1];
    if last != f {
      NamedFile(loader, v, before, f);
    }
  }

  /** Every package of such a directory is one of its files. */
  lemma {:induction false} FromSomeFile(loader: Loader, v: Value, files: seq<Path>, key: Value)
    requires v.Files? && v.tag.DirNamed? && InFiles(loader, v, files, key).Some?
    ensures exists f :: f in v.values && InFiles(loader, v, files, key).value == v.values[f]
    decreases |files|
  {
    hide Stem;
    var last, before := files[|files| - 1], files[..|files| - 1];
    if last in v.values && StrKey(Stem(last)) == key {
      assert last in v.values && InFiles(loader, v, files, key).value == v.values[last];
    } else {
      FromSomeFile(loader, v, before, key);
    }
  }

  /**
   Packages split over the files of a directory are quiet exactly when every file is a mapping without the
   section, for a loader that reads each of the files, no two of one name.
   */
  lemma QuietDirectory(loader: Loader, v: Value)
    requires v.Files? && v.tag.DirNamed? && forall f | f in v.values :: f in loader.order(v.values.Keys)
    requires forall f, g | f in v.values && g in v.values && Stem(f) == Stem(g) :: f == g
    ensures Quiet(loader, v) <==> forall f | f in v.values :: QuietPackage(loader, v.values[f])
  {
    hide Stem, QuietPackage, InFiles;
    var files := loader.order(v.values.Keys);
    if Quiet(loader, v) {
      forall f | f in v.values ensures QuietPackage(loader, v.values[f]) {
        NamedFile(loader, v, files, f);
        assert At(loader, v, StrKey(Stem(f))) == Some(v.values[f]);
      }
    }
    if forall f | f in v.values :: QuietPackage(loader, v.values[f]) {
      forall key | !IsMerge(key) && At(loader, v, key).Some? ensures QuietPackage(loader, At(loader, v, key).value) {
        FromSomeFile(loader, v, files, key);
      }
    }
  }

  // ----- The policy

  datatype Policy = Policy(files: seq<string>, allowlist: seq<string>, graph: Graph)

  /** Load grants only when the YAML, Home Assistant's boot configuration and two scans agree. */
  ghost function LoadYamlPolicy(loader: Loader, boot: Fs, later: Fs, config: Value, fuel: nat): Option<Policy> {
    var first, raw := ScanSourceGraph(boot), Configuration(boot, fuel);
    if first.None? || !IsMapping(raw) || !IsMapping(config) || !PackagesAreQuiet(loader, raw) || !PackagesAreQuiet(loader, config) then None
    else if Lookup(loader, raw, "hapatchy").Some? != Lookup(loader, config, "hapatchy").Some? then None
    else if SectionGrants(loader, raw).None? || SectionGrants(loader, raw) != SectionGrants(loader, config) then None
    else if ExplicitAllowlist(loader, raw).None? || ExplicitAllowlist(loader, raw) != ExplicitAllowlist(loader, config) then None
    else if ScanSourceGraph(later) != first then None
    else Some(Policy(SectionGrants(loader, raw).value.files, ExplicitAllowlist(loader, raw).value, first.value))
  }

  /** The current check: the scan still succeeds, with the same authority. */
  predicate CheckCurrent(policy: Policy, now: Fs) {
    var current := ScanSourceGraph(now);
    current.Some? && current.value.SameAuthorityAs(policy.graph)
  }

  /** What the grants of a configuration would be if they were read again. */
  ghost predicate StillGrants(loader: Loader, document: Value, files: seq<string>, allowlist: seq<string>) {
    && IsMapping(document) && PackagesAreQuiet(loader, document)
    && SectionGrants(loader, document).Some? && SectionGrants(loader, document).value.files == files
    && ExplicitAllowlist(loader, document) == Some(allowlist)
  }

  /**
   A policy is frozen exactly when all three sources agree: the files as they are grant it, Home Assistant booted with
   the same grants, entry for entry, and two scans found the same sources.
   */
  lemma LoadsExactly(loader: Loader, boot: Fs, later: Fs, config: Value, fuel: nat, policy: Policy)
    ensures
      LoadYamlPolicy(loader, boot, later, config, fuel) == Some(policy) <==>
      var raw := Configuration(boot, fuel);
      && ScanSourceGraph(boot) == Some(policy.graph) && ScanSourceGraph(later) == Some(policy.graph)
      && StillGrants(loader, raw, policy.files, policy.allowlist) && StillGrants(loader, config, policy.files, policy.allowlist)
      && (Lookup(loader, raw, "hapatchy").Some? <==> Lookup(loader, config, "hapatchy").Some?)
      && SectionGrants(loader, raw).value.directories == SectionGrants(loader, config).value.directories
    ensures LoadYamlPolicy(loader, boot, later, config, fuel) == Some(policy) ==> CheckCurrent(policy, later)
  {
    hide ScanSourceGraph, Configuration, SectionGrants, ExplicitAllowlist, PackagesAreQuiet, Lookup, IsMapping;
  }

  lemma SameGrantsStill(loader: Loader, v: Value, w: Value, files: seq<string>, allowlist: seq<string>)
    requires SameGrants(loader, v, w) && StillGrants(loader, v, files, allowlist)
    ensures StillGrants(loader, w, files, allowlist)
  {
    hide Lookup, ValidGrants, Quiet, Elements, Strings, IsMapping;
  }

  /**
   While the check passes, the frozen grants are the current ones, and they are those Home Assistant booted with:
   reading the configuration again would give the same files, the same allowed directories, and packages that are
   still quiet.
   */
  lemma FrozenGrantsAreCurrent(loader: Loader, boot: Fs, later: Fs, config: Value, fuel: nat, policy: Policy, now: Fs)
    requires LoadYamlPolicy(loader, boot, later, config, fuel) == Some(policy) && CheckCurrent(policy, now)
    requires Scanned(boot).scan.swallowed == {} && Scanned(now).scan.swallowed == {} && PlainGrants(Scanned(boot).scan)
    ensures StillGrants(loader, Configuration(now, fuel), policy.files, policy.allowlist)
    ensures StillGrants(loader, config, policy.files, policy.allowlist)
  {
    LoadsExactly(loader, boot, later, config, fuel, policy);
    hide LoadYamlPolicy;
    hide Scanned, Configuration, SectionGrants, ExplicitAllowlist, PackagesAreQuiet, SameGrants, PlainGrants, Lookup;
    AuthorityFixesGrants(loader, boot, now, fuel);
    SameGrantsStill(loader, Configuration(boot, fuel), Configuration(now, fuel), policy.files, policy.allowlist);
  }

  // ----- What a configuration says

  /** A list of strings, written out. */
  function Texts(strings: seq<string>): Value {
    List(seq(|strings|, i requires 0 <= i < |strings| => StrKey(strings[i])))
  }

  function Plain(key: string, v: Value): Value {
    Dict([Item(StrKey(key), v)])
  }

  lemma {:induction false} StringsAre(loader: Loader, elements: seq<Value>, texts: seq<string>)
    ensures Strings(loader, elements) == Some(texts) <==>
            |elements| == |texts| && forall i | 0 <= i < |elements| :: StringOf(loader, elements[i]) == Some(texts[i])
    decreases |elements|
  {
    hide StringOf;
    if elements != [] && texts != [] {
      StringsAre(loader, elements[1..], texts[1..]);
      assert texts == [texts[0]] + texts[1..];
      var rest := Strings(loader, elements[1..]);
      if Strings(loader, elements) == Some(texts) {
        assert ([texts[0]] + rest.value)[1..] == rest.value;
      }
      if |elements| == |texts| && forall i | 0 <= i < |elements| :: StringOf(loader, elements[i]) == Some(texts[i]) {
        assert forall i | 0 <= i < |elements[1..]| :: StringOf(loader, elements[1..][i]) == Some(texts[1..][i]);
      }
    } else if elements == [] {
      assert Strings(loader, elements) == Some([]);
    }
  }

  lemma PlainSays(loader: Loader, key: string, v: Value, other: string)
    ensures IsMapping(Plain(key, v)) && Lookup(loader, Plain(key, v), other) == if key == other then Some(v) else None
  {
    NotMerge(key);
    AssocFirst(loader, Item(StrKey(key), v), [], StrKey(other));
    assert [Item(StrKey(key), v)] + [] == Plain(key, v).items;
  }

  lemma NotMerge(key: string)
    ensures !IsMerge(StrKey(key))
  {
    assert "str"[0] != "merge"[0];
  }

  lemma TwoSay(loader: Loader, first: string, v: Value, second: string, w: Value, key: string)
    requires first != second
    ensures
      var both := Dict([Item(StrKey(first), v), Item(StrKey(second), w)]);
      IsMapping(both) && Lookup(loader, both, key) == if key == first then Some(v) else if key == second then Some(w) else None
  {
    var items := [Item(StrKey(first), v), Item(StrKey(second), w)];
    NotMerge(first);
    NotMerge(second);
    AssocFirst(loader, items[0], [items[1]], StrKey(key));
    AssocFirst(loader, items[1], [], StrKey(key));
    assert [items[1]] + [] == [items[1]] && [items[0]] + [items[1]] == items;
  }

  lemma TextsAreEntries(files: seq<string>, parts: nat)
    ensures AreEntries(Texts(files).elements, parts, files) <==>
            Distinct(files) && forall i | 0 <= i < |files| :: ValidEntry(StrKey(files[i]), parts)
  {
    hide ValidEntry;
  }

  lemma TextsAreStrings(loader: Loader, directories: seq<string>)
    ensures Strings(loader, Texts(directories).elements) == Some(directories)
  {
    StringsAre(loader, Texts(directories).elements, directories);
  }

  /**
   A configuration that writes its grants out: it grants exactly the files and directories it lists, if the files are
   at most 128 valid and distinct paths of two names or more, and nothing otherwise.
   */
  lemma PlainConfiguration(loader: Loader, files: seq<string>, directories: seq<string>)
    ensures
      var document := Dict([Item(StrKey("hapatchy"), Plain("allowed_files", Texts(files))),
                            Item(StrKey("homeassistant"), Plain("allowlist_external_dirs", Texts(directories)))]);
      StillGrants(loader, document, files, directories) <==>
      |files| <= 128 && Distinct(files) && forall i | 0 <= i < |files| :: ValidEntry(StrKey(files[i]), 2)
  {
    hide Lookup, ValidEntry, Entries, Distinct, Strings;
    var section, homeassistant := Plain("allowed_files", Texts(files)), Plain("allowlist_external_dirs", Texts(directories));
    TwoSay(loader, "hapatchy", section, "homeassistant", homeassistant, "hapatchy");
    TwoSay(loader, "hapatchy", section, "homeassistant", homeassistant, "homeassistant");
    PlainSays(loader, "allowed_files", Texts(files), "allowed_files");
    PlainSays(loader, "allowed_files", Texts(files), "allowed_directories");
    PlainSays(loader, "allowlist_external_dirs", Texts(directories), "allowlist_external_dirs");
    PlainSays(loader, "allowlist_external_dirs", Texts(directories), "packages");
    TextsAreStrings(loader, directories);
    EntriesExactly(Some(Texts(files)), 2, files);
    EntriesExactly(None, 1, []);
    TextsAreEntries(files, 2);
    hide Plain, Texts, AreEntries;
    assert OnlyKeys(section.items, {"allowed_files", "allowed_directories"}) by { PlainKey("allowed_files", Texts(files)); }
  }

  lemma PlainKey(key: string, v: Value)
    requires key in {"allowed_files", "allowed_directories"}
    ensures Plain(key, v).Dict? && Plain(key, v).items != [] && OnlyKeys(Plain(key, v).items, {"allowed_files", "allowed_directories"})
  {
  }

  /** A package with a section of its own, in the files or in what Home Assistant booted with, keeps any policy from being frozen. */
  lemma PackageForbids(loader: Loader, boot: Fs, later: Fs, config: Value, fuel: nat, document: Value,
                       homeassistant: Value, packages: Value, key: Value)
    requires document == config || document == Configuration(boot, fuel)
    requires Lookup(loader, document, "homeassistant") == Some(homeassistant) && Lookup(loader, homeassistant, "packages") == Some(packages)
    requires !IsMerge(key) && At(loader, packages, key).Some? && Lookup(loader, At(loader, packages, key).value, "hapatchy").Some?
    ensures LoadYamlPolicy(loader, boot, later, config, fuel) == None
  {
    hide ScanSourceGraph, Configuration, SectionGrants, ExplicitAllowlist;
    assert !PackagesAreQuiet(loader, document) by {
      assert !QuietPackage(loader, At(loader, packages, key).value);
    }
    hide PackagesAreQuiet, At;
  }

  /** A section that is no mapping, is empty, has another key or an entry that is not valid keeps any policy from being frozen. */
  lemma SectionForbids(loader: Loader, boot: Fs, later: Fs, config: Value, fuel: nat, document: Value, section: Value)
    requires document == config || document == Configuration(boot, fuel)
    requires Lookup(loader, document, "hapatchy") == Some(section)
    requires
      || !section.Dict? || section.items == []
      || (exists item :: item in section.items && !(item.key in {StrKey("allowed_files"), StrKey("allowed_directories")}))
      || Entries(Lookup(loader, section, "allowed_files"), 2).None? || Entries(Lookup(loader, section, "allowed_directories"), 1).None?
    ensures LoadYamlPolicy(loader, boot, later, config, fuel) == None
  {
    hide ScanSourceGraph, Configuration, ExplicitAllowlist, PackagesAreQuiet, Entries, Lookup;
    assert SectionGrants(loader, document) == None;
  }

  /** So do allowed directories that are no list, or a list with something that is no string. */
  lemma AllowlistForbids(loader: Loader, boot: Fs, later: Fs, config: Value, fuel: nat, document: Value,
                         homeassistant: Value, directories: Value)
    requires document == config || document == Configuration(boot, fuel)
    requires Lookup(loader, document, "homeassistant") == Some(homeassistant)
    requires
      || !IsMapping(homeassistant)
      || (Lookup(loader, homeassistant, "allowlist_external_dirs") == Some(directories) &&
          (Elements(loader, directories).None? ||
           exists i :: 0 <= i < |Elements(loader, directories).value| && StringOf(loader, Elements(loader, directories).value[i]).None?))
    ensures LoadYamlPolicy(loader, boot, later, config, fuel) == None
  {
    hide ScanSourceGraph, Configuration, SectionGrants, PackagesAreQuiet, Elements, Lookup, StringOf;
    assert ExplicitAllowlist(loader, document) == None by {
      if IsMapping(homeassistant) && Elements(loader, directories).Some? {
        var elements := Elements(loader, directories).value;
        if Strings(loader, elements).Some? {
          StringsAre(loader, elements, Strings(loader, elements).value);
        }
      }
    }
  }
}
