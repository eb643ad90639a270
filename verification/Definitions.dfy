/**
 Patch definitions as they are read from saved entries, and as they are saved again.

 A saved entry is whatever JSON the entry holds. Glob matching and the URL check are parameters.
 */
module Definitions {
  import opened Models
  import opened PatchParser

  datatype Json = Str(text: string) | Bool(flag: bool) | Number(value: real) | NotFinite | Null | Other(isTruthy: bool)
  {
    predicate Truthy() {
      match this
      case Str(text) => text != ""
      case Bool(flag) => flag
      case Number(value) => value != 0.0
      case NotFinite => true
      case Null => false
      case Other(isTruthy) => isTruthy
    }
  }

  type RawData = map<string, Json>

  /** The two checks made by libraries: a glob pattern against a relative path, and an HTTPS URL. */
  datatype Checks = Checks(matches: (string, string) -> bool, url: string -> bool)

  function Get(raw: RawData, key: string, default: Json): Json {
    if key in raw then raw[key] else default
  }

  // ----- Paths

  /** A target path outside the protected directories. */
  function RelativePath(path: string): Result<string> {
    if SafePath(path).Failure? then SafePath(path)
    else
      var parts := Split(path, '/');
      if parts[0] == ".storage" || parts[0] == ".hapatchy" ||
         (|parts| >= 2 && parts[0] == "custom_components" && parts[1] == "hapatchy")
      then Failure(PatchError(ProtectedPath, SecurityError))
      else Success(path)
  }

  function Joined(parts: seq<string>): string {
    if parts == [] then "" else if |parts| == 1 then parts[0] else parts[0] + "/" + Joined(parts[1..])
  }

  /** The target below its watch root. */
  function Below(target: string, root: string): Result<string> {
    var parts, above := Split(target, '/'), Split(root, '/');
    if !(above <= parts) || |parts| <= |above| then Failure(PatchError(TargetOutsideWatchRoot, SecurityError))
    else Success(Joined(parts[|above|..]))
  }

  // ----- Fields

  /** The characters Python's strip removes. */
  predicate IsSpace(c: char) {
    '\t' <= c <= '\r' || '\U{1C}' <= c <= ' ' || c == '\U{85}' || c == '\U{A0}' || c == '\U{1680}' ||
    '\U{2000}' <= c <= '\U{200A}' || c == '\U{2028}' || c == '\U{2029}' || c == '\U{202F}' || c == '\U{205F}' ||
    c == '\U{3000}'
  }

  predicate Filled(v: Json) {
    v.Str? && exists c | c in v.text :: !IsSpace(c)
  }

  const RequiredFields := ["name", "target_path", "watch_root", "source_type", "source"]

  const Flags := ["enabled", "auto_apply", "reconcile_on_startup", "backup_before_apply"]

  predicate LowerHexDigest(s: string) {
    |s| == 64 && forall c | c in s :: IsDigit(c) || 'a' <= c <= 'f'
  }

  predicate HexDigest(s: string) {
    |s| == 64 && forall c | c in s :: IsDigit(c) || 'a' <= c <= 'f' || 'A' <= c <= 'F'
  }

  function Lower(s: string): string {
    if s == "" then ""
    else [if 'A' <= s[0] <= 'Z' then (s[0] as int + 32) as char else s[0]] + Lower(s[1..])
  }

  function SourceProblem(kind: string, source: string, target: string, checks: Checks): Option<PatchError> {
    if kind == "local" then
      var path := RelativePath(source);
      if path.Failure? then Some(path.error)
      else if Split(source, '/') == Split(target, '/') then Some(PatchError(SourceIsTarget, SecurityError))
      else None
    else if kind == "managed" then
      if LowerHexDigest(source) then None else Some(PatchError(InvalidManagedSource, SecurityError))
    else if kind == "url" then
      if checks.url(source) then None else Some(PatchError(InvalidSourceUrl, SecurityError))
    else Some(Invalid(InvalidSourceType))
  }

  function DebounceSeconds(v: Json): Result<real> {
    if v.Number? && 0.1 <= v.value <= 60.0 then Success(v.value) else Failure(Invalid(InvalidDebounce))
  }

  /** A falsy digest counts as none; a digest is kept in lower case. */
  function SourceDigest(v: Json): Result<Option<string>> {
    if !v.Truthy() then Success(None)
    else if v.Str? && HexDigest(v.text) then Success(Some(Lower(v.text)))
    else Failure(Invalid(InvalidSourceHash))
  }

  /** The watch pattern: as given, or the target below the root. */
  function Pattern(v: Json, relative: string, checks: Checks): Result<string> {
    var pattern := if v.Truthy() then v else Str(relative);
    if pattern.Str? && checks.matches(relative, pattern.text) then Success(pattern.text)
    else Failure(Invalid(PatternMissesTarget))
  }

  // ----- Definitions

  function FromMapping(id: string, raw: RawData, checks: Checks): Result<PatchDefinition> {
    if exists field | field in RequiredFields :: !Filled(Get(raw, field, Null)) then Failure(Invalid(RequiredField))
    else
      assert forall field | field in RequiredFields :: Filled(Get(raw, field, Null));
      assert RequiredFields[0] in RequiredFields && RequiredFields[1] in RequiredFields && RequiredFields[2] in RequiredFields;
      assert RequiredFields[3] in RequiredFields && RequiredFields[4] in RequiredFields;
      FromFields(id, raw["name"].text, raw["target_path"].text, raw["watch_root"].text, raw["source_type"].text,
                 raw["source"].text, raw, checks)
  }

  function FromFields(id: string, name: string, target: string, root: string, kind: string, source: string,
                      raw: RawData, checks: Checks): Result<PatchDefinition>
  {
    if RelativePath(target).Failure? then Failure(RelativePath(target).error)
    else if RelativePath(root).Failure? then Failure(RelativePath(root).error)
    else
      var relative := Below(target, root);
      if relative.Failure? then Failure(relative.error)
      else
        var pattern := Pattern(Get(raw, "watch_pattern", Null), relative.value, checks);
        if pattern.Failure? then Failure(pattern.error)
        else if SourceProblem(kind, source, target, checks).Some? then
          Failure(SourceProblem(kind, source, target, checks).value)
        else if exists flag | flag in Flags :: !Get(raw, flag, Bool(true)).Bool? then Failure(Invalid(InvalidBoolean))
        else
          var debounce, digest := DebounceSeconds(Get(raw, "debounce_seconds", Number(1.5))), SourceDigest(Get(raw, "source_sha256", Null));
          if debounce.Failure? then Failure(debounce.error)
          else if digest.Failure? then Failure(digest.error)
          else
            Success(PatchDefinition(id, name, target, root, pattern.value, kind, source,
                                    IsTrue(raw, "enabled"), IsTrue(raw, "auto_apply"),
                                    IsTrue(raw, "reconcile_on_startup"), IsTrue(raw, "backup_before_apply"),
                                    debounce.value, digest.value))
  }

  function IsTrue(raw: RawData, flag: string): bool {
    Get(raw, flag, Bool(true)) == Bool(true)
  }

  /** What is saved for a definition: every field but the id. */
  function AsData(d: PatchDefinition): RawData {
    map["name" := Str(d.name), "target_path" := Str(d.targetPath), "watch_root" := Str(d.watchRoot),
        "watch_pattern" := Str(d.watchPattern), "source_type" := Str(d.sourceType), "source" := Str(d.source),
        "enabled" := Bool(d.enabled), "auto_apply" := Bool(d.autoApply),
        "reconcile_on_startup" := Bool(d.reconcileOnStartup), "backup_before_apply" := Bool(d.backupBeforeApply),
        "debounce_seconds" := Number(d.debounceSeconds),
        "source_sha256" := if d.sourceSha256.Some? then Str(d.sourceSha256.value) else Null]
  }

  // ----- Normal form

  lemma {:induction false} LowerStays(s: string)
    requires forall c | c in s :: IsDigit(c) || 'a' <= c <= 'f'
    ensures Lower(s) == s
  {
    if s != "" {
      assert s[0] in s;
      LowerStays(s[1..]);
    }
  }

  lemma {:induction false} LowerIsLower(s: string)
    requires forall c | c in s :: IsDigit(c) || 'a' <= c <= 'f' || 'A' <= c <= 'F'
    ensures |Lower(s)| == |s| && forall c | c in Lower(s) :: IsDigit(c) || 'a' <= c <= 'f'
  {
    if s != "" {
      assert s[0] in s;
      LowerIsLower(s[1..]);
    }
  }

  lemma {:induction false} SplitHasPieces(s: string)
    ensures |Split(s, '/')| > 0
    decreases |s|
  {
  }

  lemma {:induction false} JoinSplit(s: string)
    ensures Joined(Split(s, '/')) == s
    decreases |s|
  {
    var first := UpTo(s, '/');
    if first != s {
      UpToStops(s, '/');
      var rest := s[|first| + 1..];
      JoinSplit(rest);
      SplitHasPieces(rest);
      assert ([first] + Split(rest, '/'))[1..] == Split(rest, '/');
      assert s == first + "/" + rest;
    }
  }

  lemma {:induction false} JoinConcat(x: seq<string>, y: seq<string>)
    requires x != [] && y != []
    ensures Joined(x + y) == Joined(x) + "/" + Joined(y)
  {
    assert (x + y)[1..] == x[1..] + y;
    if |x| > 1 {
      JoinConcat(x[1..], y);
      assert x[0] + "/" + (Joined(x[1..]) + "/" + Joined(y)) == x[0] + "/" + Joined(x[1..]) + "/" + Joined(y);
    } else {
      assert x[1..] + y == y;
    }
  }

  // ----- The paths that are accepted

  /** A name: not empty, not a step in place or upwards, no separator and none of the refused characters. */
  predicate PlainPart(part: string) {
    && part != "" && part != "." && part != ".."
    && '/' !in part && '\\' !in part && '\0' !in part && '\t' !in part && '\n' !in part && '\r' !in part
  }

  /** Names that lead into no directory of Home Assistant's storage or of the integration itself. */
  predicate Unprotected(parts: seq<string>) {
    && parts != [] && parts[0] != ".storage" && parts[0] != ".hapatchy"
    && !(|parts| >= 2 && parts[0] == "custom_components" && parts[1] == "hapatchy")
  }

  lemma {:induction false} SplitJoined(parts: seq<string>)
    requires parts != [] && forall part | part in parts :: '/' !in part
    ensures Split(Joined(parts), '/') == parts
  {
    var path := Joined(parts);
    assert parts[0] in parts;
    if |parts| == 1 {
      UpToIs(path, path, '/');
    } else {
      SplitJoined(parts[1..]);
      UpToIs(path, parts[0], '/');
      assert path[|parts[0]| + 1..] == Joined(parts[1..]);
      assert UpTo(path, '/') != path;
    }
  }

  lemma {:induction false} PiecesHaveNone(s: string)
    ensures forall part | part in Split(s, '/') :: '/' !in part
    decreases |s|
  {
    var first := UpTo(s, '/');
    if first != s {
      UpToStops(s, '/');
      PiecesHaveNone(s[|first| + 1..]);
    }
  }

  /** The characters of a path are those of its parts, and the separators. */
  lemma {:induction false} JoinedHas(parts: seq<string>, c: char)
    requires c != '/'
    ensures c in Joined(parts) <==> exists part :: part in parts && c in part
  {
    if |parts| > 1 {
      JoinedHas(parts[1..], c);
      assert parts[0] in parts;
      assert forall part | part in parts[1..] :: part in parts;
      assert forall part | part in parts :: part == parts[0] || part in parts[1..];
    } else if |parts| == 1 {
      assert parts[0] in parts;
    }
  }

  lemma NoneHas(parts: seq<string>, c: char)
    requires c != '/' && forall part | part in parts :: c !in part
    ensures c !in Joined(parts)
  {
    JoinedHas(parts, c);
  }

  lemma AllLack(parts: seq<string>, c: char)
    requires c != '/' && c !in Joined(parts)
    ensures forall part | part in parts :: c !in part
  {
    JoinedHas(parts, c);
  }

  lemma PlainIsSafe(parts: seq<string>)
    requires parts != [] && forall part | part in parts :: PlainPart(part)
    ensures SafePath(Joined(parts)).Success? && Split(Joined(parts), '/') == parts
  {
    SplitJoined(parts);
    NoneHas(parts, '\\');
    NoneHas(parts, '\0');
    NoneHas(parts, '\t');
    NoneHas(parts, '\n');
    NoneHas(parts, '\r');
    assert parts[0] in parts;
    hide Joined, Split;
  }

  lemma SafeIsPlain(path: string)
    requires SafePath(path).Success?
    ensures Joined(Split(path, '/')) == path && Split(path, '/') != []
    ensures forall part | part in Split(path, '/') :: PlainPart(part)
  {
    var parts := Split(path, '/');
    JoinSplit(path);
    SplitHasPieces(path);
    PiecesHaveNone(path);
    hide Joined, Split;
    AllLack(parts, '\\');
    AllLack(parts, '\0');
    AllLack(parts, '\t');
    AllLack(parts, '\n');
    AllLack(parts, '\r');
  }

  /** A path is safe exactly when it is made of such names. */
  lemma SafePaths(path: string)
    ensures SafePath(path).Success? <==> exists parts :: parts != [] && path == Joined(parts) && forall part | part in parts :: PlainPart(part)
    ensures SafePath(path) == if SafePath(path).Success? then Success(path) else Failure(PatchError(UnsafePath, SecurityError))
  {
    if SafePath(path).Success? {
      SafeIsPlain(path);
    }
    hide SafePath, Joined, PlainPart;
    forall parts | parts != [] && path == Joined(parts) && forall part | part in parts :: PlainPart(part) ensures SafePath(path).Success? {
      PlainIsSafe(parts);
    }
  }

  /** A target, a watch root or a local source is accepted exactly when its names are such, and lead nowhere protected. */
  lemma TargetPaths(path: string)
    ensures RelativePath(path) == Success(path) <==>
            exists parts :: Unprotected(parts) && path == Joined(parts) && forall part | part in parts :: PlainPart(part)
    ensures RelativePath(path).Failure? ==>
            RelativePath(path).error == PatchError(if SafePath(path).Success? then ProtectedPath else UnsafePath, SecurityError)
  {
    SafePaths(path);
    if RelativePath(path).Success? {
      SafeIsPlain(path);
    }
    hide SafePath, Joined, PlainPart;
    forall parts | Unprotected(parts) && path == Joined(parts) && forall part | part in parts :: PlainPart(part)
      ensures RelativePath(path) == Success(path)
    {
      PlainIsSafe(parts);
    }
  }

  /** The part of the target below its root is what follows the root and a slash. */
  lemma BelowIsDrop(target: string, root: string)
    requires Below(target, root).Success?
    ensures |root| < |target| && target == root + "/" + Below(target, root).value
  {
    var parts, above := Split(target, '/'), Split(root, '/');
    SplitHasPieces(root);
    JoinSplit(target);
    JoinSplit(root);
    assert parts == above + parts[|above|..];
    JoinConcat(above, parts[|above|..]);
  }

  /** A safe target lies below a safe root exactly when it continues it, and what is below is the rest. */
  lemma BelowExactly(target: string, root: string)
    requires SafePath(target).Success? && SafePath(root).Success?
    ensures Below(target, root).Success? <==> root + "/" <= target
    ensures Below(target, root).Success? ==> Below(target, root).value == target[|root| + 1..]
  {
    hide SafePath;
    if Below(target, root).Success? {
      BelowIsDrop(target, root);
      assert (root + "/" + Below(target, root).value)[|root| + 1..] == Below(target, root).value;
    }
    if root + "/" <= target {
      var rest := target[|root| + 1..];
      var above, parts := Split(root, '/'), Split(rest, '/');
      SplitHasPieces(root);
      SplitHasPieces(rest);
      PiecesHaveNone(root);
      PiecesHaveNone(rest);
      JoinSplit(root);
      JoinSplit(rest);
      JoinConcat(above, parts);
      assert target == root + "/" + rest;
      SplitJoined(above + parts);
      assert (above + parts)[..|above|] == above;
    }
  }

  /** A safe target has something below its root, so the default pattern is never empty. */
  lemma BelowIsFilled(target: string, root: string)
    requires SafePath(target).Success? && Below(target, root).Success?
    ensures Below(target, root).value != ""
  {
    var parts, above := Split(target, '/'), Split(root, '/');
    var last := parts[|above|];
    assert last in parts && parts[|above|..][0] == last;
  }

  /** What every definition that was read from an entry satisfies. */
  predicate Sound(d: PatchDefinition, checks: Checks) {
    && Filled(Str(d.name)) && Filled(Str(d.targetPath)) && Filled(Str(d.watchRoot))
    && Filled(Str(d.sourceType)) && Filled(Str(d.source))
    && RelativePath(d.targetPath).Success? && RelativePath(d.watchRoot).Success?
    && Below(d.targetPath, d.watchRoot).Success?
    && d.watchPattern != "" && checks.matches(Below(d.targetPath, d.watchRoot).value, d.watchPattern)
    && SourceProblem(d.sourceType, d.source, d.targetPath, checks).None?
    && 0.1 <= d.debounceSeconds <= 60.0
    && (d.sourceSha256.Some? ==> LowerHexDigest(d.sourceSha256.value))
  }

  lemma RequiredAreFilled(raw: RawData)
    requires forall field | field in RequiredFields :: Filled(Get(raw, field, Null))
    ensures forall field | field in {"name", "target_path", "watch_root", "source_type", "source"} :: field in raw && Filled(raw[field])
  {
    hide Filled;
    assert RequiredFields[0] in RequiredFields && RequiredFields[1] in RequiredFields && RequiredFields[2] in RequiredFields;
    assert RequiredFields[3] in RequiredFields && RequiredFields[4] in RequiredFields;
    assert !Filled(Null) by { NullIsNotFilled(); }
  }

  lemma NullIsNotFilled()
    ensures !Filled(Null)
  {
  }

  lemma PatternIsFilled(v: Json, target: string, root: string, checks: Checks)
    requires SafePath(target).Success? && Below(target, root).Success? && Pattern(v, Below(target, root).value, checks).Success?
    ensures Pattern(v, Below(target, root).value, checks).value != ""
  {
    hide SafePath, Below;
    BelowIsFilled(target, root);
  }

  lemma DigestIsLower(v: Json)
    requires SourceDigest(v).Success? && SourceDigest(v).value.Some?
    ensures LowerHexDigest(SourceDigest(v).value.value)
  {
    LowerIsLower(v.text);
  }

  lemma FieldsAreSound(id: string, name: string, target: string, root: string, kind: string, source: string,
                       raw: RawData, checks: Checks)
    requires FromFields(id, name, target, root, kind, source, raw, checks).Success?
    requires Filled(Str(name)) && Filled(Str(target)) && Filled(Str(root)) && Filled(Str(kind)) && Filled(Str(source))
    ensures Sound(FromFields(id, name, target, root, kind, source, raw, checks).value, checks)
    ensures FromFields(id, name, target, root, kind, source, raw, checks).value.patchId == id
  {
    hide Filled, SafePath, Below, SourceProblem, Pattern, SourceDigest, LowerHexDigest;
    var relative := Below(target, root).value;
    var v := Get(raw, "watch_pattern", Null);
    assert SafePath(target).Success?;
    PatternIsFilled(v, target, root, checks);
    assert checks.matches(relative, Pattern(v, relative, checks).value) by { PatternMatches(v, relative, checks); }
    var digest := Get(raw, "source_sha256", Null);
    if SourceDigest(digest).value.Some? {
      DigestIsLower(digest);
    }
  }

  lemma PatternMatches(v: Json, relative: string, checks: Checks)
    requires Pattern(v, relative, checks).Success?
    ensures checks.matches(relative, Pattern(v, relative, checks).value)
  {
  }

  /** Reading gives sound definitions only. */
  lemma ReadIsSound(id: string, raw: RawData, checks: Checks)
    requires FromMapping(id, raw, checks).Success?
    ensures Sound(FromMapping(id, raw, checks).value, checks) && FromMapping(id, raw, checks).value.patchId == id
  {
    hide Filled, FromFields, Sound;
    RequiredAreFilled(raw);
    assert forall f | f in {"name", "target_path", "watch_root", "source_type", "source"} :: raw[f] == Str(raw[f].text) by {
      FilledAreText(raw);
    }
    FieldsAreSound(id, raw["name"].text, raw["target_path"].text, raw["watch_root"].text, raw["source_type"].text,
                   raw["source"].text, raw, checks);
  }

  lemma FilledAreText(raw: RawData)
    ensures forall f | f in raw && Filled(raw[f]) :: raw[f] == Str(raw[f].text)
  {
  }

  lemma DataIsFilled(d: PatchDefinition, checks: Checks)
    requires Sound(d, checks)
    ensures forall field | field in RequiredFields :: Filled(Get(AsData(d), field, Null))
  {
    hide Filled, RelativePath, Below, SourceProblem, LowerHexDigest;
  }

  lemma DataFlags(d: PatchDefinition)
    ensures forall flag | flag in Flags :: Get(AsData(d), flag, Bool(true)).Bool?
    ensures IsTrue(AsData(d), "enabled") == d.enabled && IsTrue(AsData(d), "auto_apply") == d.autoApply
    ensures IsTrue(AsData(d), "reconcile_on_startup") == d.reconcileOnStartup
    ensures IsTrue(AsData(d), "backup_before_apply") == d.backupBeforeApply
  {
  }

  lemma DigestReads(digest: Option<string>)
    requires digest.Some? ==> LowerHexDigest(digest.value)
    ensures SourceDigest(if digest.Some? then Str(digest.value) else Null) == Success(digest)
  {
    if digest.Some? {
      LowerStays(digest.value);
    }
  }

  lemma PatternReads(pattern: string, relative: string, checks: Checks)
    requires pattern != "" && checks.matches(relative, pattern)
    ensures Pattern(Str(pattern), relative, checks) == Success(pattern)
  {
  }

  lemma DataRest(d: PatchDefinition)
    ensures Get(AsData(d), "watch_pattern", Null) == Str(d.watchPattern)
    ensures Get(AsData(d), "debounce_seconds", Number(1.5)) == Number(d.debounceSeconds)
    ensures Get(AsData(d), "source_sha256", Null) == if d.sourceSha256.Some? then Str(d.sourceSha256.value) else Null
  {
  }

  lemma FieldsRead(d: PatchDefinition, checks: Checks)
    requires Sound(d, checks)
    ensures FromFields(d.patchId, d.name, d.targetPath, d.watchRoot, d.sourceType, d.source, AsData(d), checks) == Success(d)
  {
    hide AsData, Filled, RelativePath, Below, SourceProblem, Pattern, SourceDigest, LowerHexDigest, IsTrue, Get;
    DataRest(d);
    DataFlags(d);
    DigestReads(d.sourceSha256);
    PatternReads(d.watchPattern, Below(d.targetPath, d.watchRoot).value, checks);
  }

  lemma SoundReads(d: PatchDefinition, checks: Checks)
    requires Sound(d, checks)
    ensures FromMapping(d.patchId, AsData(d), checks) == Success(d)
  {
    hide Filled, FromFields, Sound;
    DataIsFilled(d, checks);
    FieldsRead(d, checks);
  }

  /**
   Saved, then read: a definition read from any entry is saved as an entry that reads as the same
   definition, also after its automatic-apply setting was changed.
   */
  lemma NormalForm(id: string, raw: RawData, checks: Checks, automatic: bool)
    requires FromMapping(id, raw, checks).Success?
    ensures
      var d := FromMapping(id, raw, checks).value.(autoApply := automatic);
      FromMapping(id, AsData(d), checks) == Success(d)
  {
    hide FromMapping, AsData, Filled, RelativePath, Below, SourceProblem, LowerHexDigest;
    ReadIsSound(id, raw, checks);
    SoundReads(FromMapping(id, raw, checks).value.(autoApply := automatic), checks);
  }

  /** The definitions that can be read are exactly those that save and read back unchanged. */
  lemma NormalFormsAreTheRange(id: string, d: PatchDefinition, checks: Checks)
    ensures FromMapping(id, AsData(d), checks) == Success(d) <==> d.patchId == id && Sound(d, checks)
    ensures FromMapping(id, AsData(d), checks) == Success(d) <==> exists raw :: FromMapping(id, raw, checks) == Success(d)
  {
    hide FromMapping, AsData, Sound;
    if d.patchId == id && Sound(d, checks) {
      SoundReads(d, checks);
    }
    if exists raw :: FromMapping(id, raw, checks) == Success(d) {
      var raw :| FromMapping(id, raw, checks) == Success(d);
      ReadIsSound(id, raw, checks);
    }
  }

  // ----- What an entry says

  /** The flag as the entry has it; true when it is left out. */
  predicate FlagIs(raw: RawData, flag: string, value: bool) {
    if flag in raw then raw[flag] == Bool(value) else value
  }

  predicate TextIs(raw: RawData, field: string, value: string) {
    field in raw && raw[field] == Str(value)
  }

  /** An empty setting counts as left out: then the pattern is the target below its root, and there is no digest. */
  predicate LeftOut(raw: RawData, field: string) {
    field in raw ==> raw[field] in {Str(""), Bool(false), Number(0.0), Null, Other(false)}
  }

  /** The entry says what the definition holds, field by field. */
  predicate Describes(raw: RawData, d: PatchDefinition) {
    && TextIs(raw, "name", d.name) && TextIs(raw, "target_path", d.targetPath) && TextIs(raw, "watch_root", d.watchRoot)
    && TextIs(raw, "source_type", d.sourceType) && TextIs(raw, "source", d.source)
    && (if LeftOut(raw, "watch_pattern") then d.targetPath == d.watchRoot + "/" + d.watchPattern
        else TextIs(raw, "watch_pattern", d.watchPattern))
    && FlagIs(raw, "enabled", d.enabled) && FlagIs(raw, "auto_apply", d.autoApply)
    && FlagIs(raw, "reconcile_on_startup", d.reconcileOnStartup) && FlagIs(raw, "backup_before_apply", d.backupBeforeApply)
    && (if "debounce_seconds" in raw then raw["debounce_seconds"] == Number(d.debounceSeconds) else d.debounceSeconds == 1.5)
    && (if LeftOut(raw, "source_sha256") then d.sourceSha256 == None
        else raw["source_sha256"].Str? && HexDigest(raw["source_sha256"].text) && d.sourceSha256 == Some(Lower(raw["source_sha256"].text)))
  }

  lemma FalsyIsLeftOut(raw: RawData, field: string)
    ensures LeftOut(raw, field) <==> !Get(raw, field, Null).Truthy()
  {
  }

  lemma FlagIsRead(raw: RawData, flag: string, value: bool)
    ensures FlagIs(raw, flag, value) <==> Get(raw, flag, Bool(true)).Bool? && IsTrue(raw, flag) == value
  {
  }

  lemma FlagsAreRead(raw: RawData, d: PatchDefinition)
    ensures
      (&& FlagIs(raw, "enabled", d.enabled) && FlagIs(raw, "auto_apply", d.autoApply)
       && FlagIs(raw, "reconcile_on_startup", d.reconcileOnStartup) && FlagIs(raw, "backup_before_apply", d.backupBeforeApply)) <==>
      (&& (forall flag | flag in Flags :: Get(raw, flag, Bool(true)).Bool?)
       && d.enabled == IsTrue(raw, "enabled") && d.autoApply == IsTrue(raw, "auto_apply")
       && d.reconcileOnStartup == IsTrue(raw, "reconcile_on_startup") && d.backupBeforeApply == IsTrue(raw, "backup_before_apply"))
  {
    FlagIsRead(raw, "enabled", d.enabled);
    FlagIsRead(raw, "auto_apply", d.autoApply);
    FlagIsRead(raw, "reconcile_on_startup", d.reconcileOnStartup);
    FlagIsRead(raw, "backup_before_apply", d.backupBeforeApply);
    assert Flags[0] in Flags && Flags[1] in Flags && Flags[2] in Flags && Flags[3] in Flags;
    hide FlagIs, IsTrue, Get;
  }

  lemma PatternIsRead(raw: RawData, target: string, root: string, checks: Checks, pattern: string)
    requires SafePath(target).Success? && Below(target, root).Success?
    ensures
      var relative := Below(target, root).value;
      Pattern(Get(raw, "watch_pattern", Null), relative, checks) == Success(pattern) <==>
      checks.matches(relative, pattern) &&
      if LeftOut(raw, "watch_pattern") then target == root + "/" + pattern else TextIs(raw, "watch_pattern", pattern)
  {
    FalsyIsLeftOut(raw, "watch_pattern");
    BelowIsDrop(target, root);
    hide SafePath, Below;
    var relative := Below(target, root).value;
    assert (root + "/" + relative)[|root| + 1..] == relative && (root + "/" + pattern)[|root| + 1..] == pattern;
  }

  lemma DigestIsRead(raw: RawData, digest: Option<string>)
    ensures SourceDigest(Get(raw, "source_sha256", Null)) == Success(digest) <==>
            if LeftOut(raw, "source_sha256") then digest == None
            else raw["source_sha256"].Str? && HexDigest(raw["source_sha256"].text) && digest == Some(Lower(raw["source_sha256"].text))
  {
    FalsyIsLeftOut(raw, "source_sha256");
  }

  lemma DebounceIsRead(raw: RawData, seconds: real)
    ensures DebounceSeconds(Get(raw, "debounce_seconds", Number(1.5))) == Success(seconds) <==>
            0.1 <= seconds <= 60.0 &&
            if "debounce_seconds" in raw then raw["debounce_seconds"] == Number(seconds) else seconds == 1.5
  {
  }

  lemma FieldsExactly(id: string, raw: RawData, d: PatchDefinition, checks: Checks)
    requires TextIs(raw, "name", d.name) && TextIs(raw, "target_path", d.targetPath) && TextIs(raw, "watch_root", d.watchRoot)
    requires TextIs(raw, "source_type", d.sourceType) && TextIs(raw, "source", d.source)
    requires RelativePath(d.targetPath).Success? && RelativePath(d.watchRoot).Success? && Below(d.targetPath, d.watchRoot).Success?
    requires SourceProblem(d.sourceType, d.source, d.targetPath, checks).None? && SafePath(d.targetPath).Success?
    requires checks.matches(Below(d.targetPath, d.watchRoot).value, d.watchPattern) && 0.1 <= d.debounceSeconds <= 60.0
    ensures FromFields(id, d.name, d.targetPath, d.watchRoot, d.sourceType, d.source, raw, checks) == Success(d) <==>
            d.patchId == id && Describes(raw, d)
  {
    PatternIsRead(raw, d.targetPath, d.watchRoot, checks, d.watchPattern);
    FlagsAreRead(raw, d);
    DigestIsRead(raw, d.sourceSha256);
    DebounceIsRead(raw, d.debounceSeconds);
    hide RelativePath, SafePath, Below, SourceProblem, Pattern, SourceDigest, DebounceSeconds, Get, IsTrue, FlagIs, LeftOut, HexDigest;
  }

  lemma DescribedIsFilled(raw: RawData, d: PatchDefinition, checks: Checks)
    requires Describes(raw, d) && Sound(d, checks)
    ensures forall field | field in RequiredFields :: Filled(Get(raw, field, Null))
  {
    hide Filled, RelativePath, Below, SourceProblem, LowerHexDigest, LeftOut, FlagIs;
  }

  /** Reading an entry gives exactly the definition the entry describes, and gives one exactly when that is sound. */
  lemma ReadExactly(id: string, raw: RawData, d: PatchDefinition, checks: Checks)
    ensures FromMapping(id, raw, checks) == Success(d) <==> d.patchId == id && Describes(raw, d) && Sound(d, checks)
  {
    if FromMapping(id, raw, checks) == Success(d) {
      ReadIsSound(id, raw, checks);
      ReadTexts(id, raw, d, checks);
    }
    if Describes(raw, d) && Sound(d, checks) {
      DescribedIsFilled(raw, d, checks);
    }
    hide Filled, RelativePath, Below, SourceProblem, LowerHexDigest, FromFields, LeftOut, FlagIs;
    if Sound(d, checks) && TextIs(raw, "name", d.name) && TextIs(raw, "target_path", d.targetPath) &&
       TextIs(raw, "watch_root", d.watchRoot) && TextIs(raw, "source_type", d.sourceType) && TextIs(raw, "source", d.source) {
      RelativeIsSafe(d.targetPath);
      FieldsExactly(id, raw, d, checks);
    }
  }

  lemma RelativeIsSafe(path: string)
    requires RelativePath(path).Success?
    ensures SafePath(path).Success?
  {
  }

  lemma RelativeIsItself(path: string)
    requires RelativePath(path).Success?
    ensures RelativePath(path) == Success(path)
  {
  }

  lemma ReadTexts(id: string, raw: RawData, d: PatchDefinition, checks: Checks)
    requires FromMapping(id, raw, checks) == Success(d)
    ensures TextIs(raw, "name", d.name) && TextIs(raw, "target_path", d.targetPath) && TextIs(raw, "watch_root", d.watchRoot)
    ensures TextIs(raw, "source_type", d.sourceType) && TextIs(raw, "source", d.source)
  {
    hide Filled, RelativePath, Below, SourceProblem, Pattern, SourceDigest;
    RequiredAreFilled(raw);
    FilledAreText(raw);
  }

  /** A path that a target, a watch root or a local source may have. */
  ghost predicate PlainTarget(path: string) {
    exists parts :: Unprotected(parts) && path == Joined(parts) && forall part | part in parts :: PlainPart(part)
  }

  /** A digest as it is kept. */
  predicate Digest(s: string) {
    |s| == 64 && forall c | c in s :: c in "0123456789abcdef"
  }

  /** Where a patch may come from: another file below the configuration, a stored revision, or an accepted URL. */
  ghost predicate PlainSource(kind: string, source: string, target: string, checks: Checks) {
    || (kind == "local" && PlainTarget(source) && source != target)
    || (kind == "managed" && Digest(source))
    || (kind == "url" && checks.url(source))
  }

  lemma DigestExactly(s: string)
    ensures LowerHexDigest(s) <==> Digest(s)
  {
    forall c: char ensures c in "0123456789abcdef" <==> IsHex(c) {
      HexDigits(c);
    }
  }

  lemma SourceExactly(kind: string, source: string, target: string, checks: Checks)
    ensures SourceProblem(kind, source, target, checks).None? <==> PlainSource(kind, source, target, checks)
  {
    TargetPaths(source);
    if RelativePath(source).Success? {
      RelativeIsSafe(source);
    }
    DigestExactly(source);
    JoinSplit(source);
    JoinSplit(target);
    hide RelativePath, SafePath, Split, Joined, LowerHexDigest, Digest, PlainPart, Unprotected;
  }

  /**
   What a definition that can be read is: its texts are not blank, its target lies below its watch root, both of them
   plain names outside the protected directories, the pattern matches what is below, the source is one it may have,
   checks wait at least a tenth of a second and at most a minute, and a digest is 64 lower-case hexadecimal digits.
   */
  lemma SoundExactly(d: PatchDefinition, checks: Checks)
    ensures
      Sound(d, checks) <==>
      && Filled(Str(d.name)) && Filled(Str(d.targetPath)) && Filled(Str(d.watchRoot)) && Filled(Str(d.sourceType)) && Filled(Str(d.source))
      && PlainTarget(d.targetPath) && PlainTarget(d.watchRoot) && d.watchRoot + "/" <= d.targetPath
      && d.watchPattern != "" && checks.matches(d.targetPath[|d.watchRoot| + 1..], d.watchPattern)
      && PlainSource(d.sourceType, d.source, d.targetPath, checks)
      && 0.1 <= d.debounceSeconds <= 60.0 && (d.sourceSha256.Some? ==> Digest(d.sourceSha256.value))
  {
    TargetPaths(d.targetPath);
    TargetPaths(d.watchRoot);
    if RelativePath(d.targetPath).Success? && RelativePath(d.watchRoot).Success? {
      RelativeIsSafe(d.targetPath);
      RelativeIsSafe(d.watchRoot);
      BelowExactly(d.targetPath, d.watchRoot);
    }
    SourceExactly(d.sourceType, d.source, d.targetPath, checks);
    if d.sourceSha256.Some? {
      DigestExactly(d.sourceSha256.value);
    }
    hide Filled, RelativePath, SafePath, Below, Joined, PlainPart, Unprotected, SourceProblem, PlainSource, LowerHexDigest, Digest;
  }

  /** The watcher compares the pattern with the target's path below its watch root. */
  predicate PassesFilter(d: PatchDefinition, checks: Checks) {
    checks.matches(if |d.watchRoot| < |d.targetPath| then d.targetPath[|d.watchRoot| + 1..] else "", d.watchPattern)
  }

  /** The watcher's filter drops no event on the target of a definition, whether or not automatic apply was changed. */
  lemma TargetPassesFilter(id: string, raw: RawData, checks: Checks, automatic: bool)
    requires FromMapping(id, raw, checks).Success?
    ensures PassesFilter(FromMapping(id, raw, checks).value.(autoApply := automatic), checks)
  {
    hide FromMapping, Filled, RelativePath, Below, SourceProblem, LowerHexDigest;
    ReadIsSound(id, raw, checks);
    var d := FromMapping(id, raw, checks).value;
    BelowIsDrop(d.targetPath, d.watchRoot);
    assert d.targetPath[|d.watchRoot| + 1..] == Below(d.targetPath, d.watchRoot).value;
  }

  /** The enabled flag of a definition is the entry's. */
  lemma EnabledIsRead(id: string, raw: RawData, checks: Checks)
    requires FromMapping(id, raw, checks).Success?
    ensures FromMapping(id, raw, checks).value.enabled == IsTrue(raw, "enabled")
  {
    hide Filled, RelativePath, Below, SourceProblem, Pattern, SourceDigest, IsTrue;
  }

  // ----- Entries and the runtime's copies

  type Entries = map<string, RawData>

  /** The runtime still holds exactly what its entry says. */
  predicate Matches(entries: Entries, definitions: map<string, PatchDefinition>, checks: Checks) {
    && entries.Keys == definitions.Keys
    && forall id | id in entries :: FromMapping(id, entries[id], checks) == Success(definitions[id])
  }

  /** Saving a revert's changed setting keeps the runtime and its entry in step. */
  lemma DisableKeepsStep(entries: Entries, definitions: map<string, PatchDefinition>, checks: Checks, id: string)
    requires Matches(entries, definitions, checks) && id in definitions
    ensures
      var disabled := definitions[id].(autoApply := false);
      Matches(entries[id := AsData(disabled)], definitions[id := disabled], checks)
  {
    hide FromMapping, AsData;
    NormalForm(id, entries[id], checks, false);
  }
}
