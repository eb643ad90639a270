/**
 The managed-patch builder: a diff of two edited texts, widened until it is exact in both directions.

 The sequence matcher is outside the model: any list of opcodes covering both texts, equal and changed
 stretches alternating, may be used. Grouping by context and range formatting are modelled.
 */
module PatchBuilder {
  import opened Models
  import opened LineEndings
  import opened PatchEngine
  import opened PatchParser
  import Definitions

  // ----- Lines of the edited texts

  /** The characters besides CR at which Python's splitlines breaks a line. */
  predicate IsBreak(c: char) {
    c == '\n' || c == '\U{0B}' || c == '\U{0C}' || c == '\U{1C}' || c == '\U{1D}' || c == '\U{1E}' ||
    c == '\U{85}' || c == '\U{2028}' || c == '\U{2029}'
  }

  predicate NotBreak(c: char) {
    !IsBreak(c)
  }

  /** Lines with their breaks kept, of a text without carriage returns. */
  function SplitLines(s: string): seq<string>
    decreases |s|
  {
    if s == "" then [] else
      var n := Leading(s, NotBreak);
      var end := if n < |s| then n + 1 else n;
      [s[..end]] + SplitLines(s[end..])
  }

  // ----- Diff text

  /** Lines i1..i2 of the original against lines j1..j2 of the edited text. */
  datatype Op = Op(equal: bool, i1: nat, i2: nat, j1: nat, j2: nat)

  /** Opcodes in order, covering both texts from the given lines on. */
  predicate Covers(ops: seq<Op>, a: seq<string>, b: seq<string>, i: nat, j: nat) {
    if ops == [] then i == |a| && j == |b|
    else
      var op := ops[0];
      && op.i1 == i <= op.i2 <= |a| && op.j1 == j <= op.j2 <= |b|
      && (op.i1 < op.i2 || op.j1 < op.j2)
      && (op.equal ==> a[op.i1..op.i2] == b[op.j1..op.j2])
      && (|ops| > 1 ==> ops[1].equal != op.equal)
      && Covers(ops[1..], a, b, op.i2, op.j2)
  }

  function Max(x: int, y: int): int {
    if x < y then y else x
  }

  function Min(x: int, y: int): int {
    if x < y then x else y
  }

  function KeepEnd(op: Op, n: nat): Op {
    Op(op.equal, Max(op.i1, op.i2 - n), op.i2, Max(op.j1, op.j2 - n), op.j2)
  }

  function KeepStart(op: Op, n: nat): Op {
    Op(op.equal, op.i1, Min(op.i2, op.i1 + n), op.j1, Min(op.j2, op.j1 + n))
  }

  function TrimFirst(ops: seq<Op>, n: nat): seq<Op> {
    if ops != [] && ops[0].equal then [KeepEnd(ops[0], n)] + ops[1..] else ops
  }

  function TrimLast(ops: seq<Op>, n: nat): seq<Op> {
    if ops != [] && ops[|ops| - 1].equal then ops[..|ops| - 1] + [KeepStart(ops[|ops| - 1], n)] else ops
  }

  /** A long equal stretch ends the current group and starts the next one. */
  function GroupFrom(ops: seq<Op>, n: nat, group: seq<Op>): seq<seq<Op>> {
    if ops == [] then if group == [] || (|group| == 1 && group[0].equal) then [] else [group]
    else if ops[0].equal && ops[0].i2 - ops[0].i1 > n + n then
      [group + [KeepStart(ops[0], n)]] + GroupFrom(ops[1..], n, [KeepEnd(ops[0], n)])
    else GroupFrom(ops[1..], n, group + [ops[0]])
  }

  function Groups(ops: seq<Op>, n: nat): seq<seq<Op>> {
    GroupFrom(TrimLast(TrimFirst(ops, n), n), n, [])
  }

  function Decimal(n: nat): string {
    if n < 10 then [DigitChar(n)] else Decimal(n / 10) + [DigitChar(n % 10)]
  }

  function DigitChar(n: nat): char
    requires n < 10
  {
    '0' + n as char
  }

  /** A range from line index start up to stop, counted from one; the count is left out when it is one. */
  function RangeText(start: nat, stop: int): string {
    var length := stop - start;
    if length == 1 then Decimal(start + 1)
    else if length <= 0 then Decimal(start) + "," + "0"
    else Decimal(start + 1) + "," + Decimal(length)
  }

  function Prefixed(lines: seq<string>, c: char): string {
    if lines == [] then "" else [c] + lines[0] + Prefixed(lines[1..], c)
  }

  /** Lines i up to j, as a slice that never fails. */
  function Slice(lines: seq<string>, i: nat, j: nat): seq<string> {
    if i <= j <= |lines| then lines[i..j] else []
  }

  function BodyText(group: seq<Op>, a: seq<string>, b: seq<string>): string {
    if group == [] then ""
    else
      var op := group[0];
      (if op.equal then Prefixed(Slice(a, op.i1, op.i2), ' ')
       else Prefixed(Slice(a, op.i1, op.i2), '-') + Prefixed(Slice(b, op.j1, op.j2), '+'))
      + BodyText(group[1..], a, b)
  }

  function HunkText(group: seq<Op>, a: seq<string>, b: seq<string>): string {
    if group == [] then ""
    else
      var first, last := group[0], group[|group| - 1];
      "@@ -" + RangeText(first.i1, last.i2) + " +" + RangeText(first.j1, last.j2) + " @@\n" + BodyText(group, a, b)
  }

  function HunkTexts(groups: seq<seq<Op>>, a: seq<string>, b: seq<string>): string {
    if groups == [] then "" else HunkText(groups[0], a, b) + HunkTexts(groups[1..], a, b)
  }

  function DiffText(ops: seq<Op>, a: seq<string>, b: seq<string>, target: string, context: nat): string {
    var groups := Groups(ops, context);
    if groups == [] then ""
    else "--- a/" + target + "\n" + ("+++ b/" + target + "\n") + HunkTexts(groups, a, b)
  }

  // ----- The builder

  function EditorText(data: string): Result<string> {
    if ByteLen(data) > MAX_EDITOR_BYTES then Failure(Invalid(SizeLimit))
    else if data == "" then Failure(Invalid(EditorEmpty))
    else if '\0' in data then Failure(Invalid(UnsupportedEncoding))
    else if '\r' in data || !EndsLine(data) then Failure(Invalid(EditorTextFormat))
    else Success(data)
  }

  /** A candidate that parses, applies to the original and reverts from the edited text, exactly. */
  ghost predicate Exact(candidate: string, original: string, edited: string, target: string, accepts: Oracle) {
    var parsed := Parsed(candidate, target, accepts);
    && parsed.Success?
    && Inspection(parsed.value.hunks, original) == PatchInspection(Applicable, None, Some(edited), None)
    && Inspection(parsed.value.hunks, edited) == PatchInspection(Applied, None, None, Some(original))
  }

  datatype Job = Job(original: string, edited: string, target: string, ops: seq<Op>)
  {
    function Before(): seq<string> { SplitLines(original) }

    function After(): seq<string> { SplitLines(edited) }

    function Maximum(): nat { Max(|Before()|, |After()|) }

    function Candidate(context: nat): string { DiffText(ops, Before(), After(), target, context) }
  }

  /** Widening from a context on. */
  ghost function Widened(job: Job, context: nat, accepts: Oracle): Result<string>
    requires context > 0
    decreases job.Maximum() - context
  {
    var candidate := job.Candidate(context);
    if ByteLen(candidate) > MAX_PATCH_BYTES then Failure(Invalid(SizeLimit))
    else if Exact(candidate, job.original, job.edited, job.target, accepts) then Success(candidate)
    else if context >= job.Maximum() then Failure(Invalid(EditorContextNotUnique))
    else Widened(job, Min(job.Maximum(), context * 2), accepts)
  }

  ghost function Built(job: Job, accepts: Oracle): Result<string> {
    var path, before, after := Definitions.RelativePath(job.target), EditorText(job.original), EditorText(job.edited);
    if path.Failure? then path
    else if before.Failure? then before
    else if after.Failure? then after
    else if job.original == job.edited then Failure(Invalid(EditorUnchanged))
    else Widened(job, 3, accepts)
  }

  method TryCandidate(candidate: string, job: Job, accepts: Oracle) returns (exact: bool)
    ensures exact == Exact(candidate, job.original, job.edited, job.target, accepts)
  {
    var parsed := Parse(candidate, job.target, accepts);
    if parsed.Failure? {
      return false;
    }
    var result := Inspect(parsed.value, job.original);
    var reverse := Inspect(parsed.value, job.edited);
    InspectionShape(parsed.value.hunks, job.original);
    InspectionShape(parsed.value.hunks, job.edited);
    exact := result.status == Applicable && result.forward == Some(job.edited) &&
             reverse.status == Applied && reverse.reverse == Some(job.original);
  }

  lemma InspectionShape(hunks: seq<Hunk>, raw: string)
    ensures var r := Inspection(hunks, raw);
      && (r.status == Applicable ==> r.reason.None? && r.forward.Some? && r.reverse.None?)
      && (r.status == Applied ==> r.reason.None? && r.reverse.Some? && r.forward.None?)
  {
  }

  method BuildPatch(job: Job, accepts: Oracle) returns (r: Result<string>)
    ensures r == Built(job, accepts)
  {
    var path, before, after := Definitions.RelativePath(job.target), EditorText(job.original), EditorText(job.edited);
    if path.Failure? { return path; }
    if before.Failure? { return before; }
    if after.Failure? { return after; }
    if job.original == job.edited {
      return Failure(Invalid(EditorUnchanged));
    }
    var context: nat := 3;
    var maximum := job.Maximum();
    while true
      invariant context > 0 && Built(job, accepts) == Widened(job, context, accepts)
      decreases maximum - context
    {
      var candidate := job.Candidate(context);
      if ByteLen(candidate) > MAX_PATCH_BYTES {
        return Failure(Invalid(SizeLimit));
      }
      var exact := TryCandidate(candidate, job, accepts);
      if exact {
        return Success(candidate);
      }
      if context >= maximum {
        return Failure(Invalid(EditorContextNotUnique));
      }
      context := Min(maximum, context * 2);
    }
  }

  // ----- Which context is taken

  /** The contexts tried: three lines, then twice as many each time, up to the length of the longer text. */
  function Width(job: Job, k: nat): (w: nat)
    ensures w > 0
  {
    if k == 0 then 3 else if 2 * Width(job, k - 1) < job.Maximum() || job.Maximum() <= 0 then 2 * Width(job, k - 1) else job.Maximum()
  }

  predicate WithinLimit(job: Job, k: nat) {
    ByteLen(job.Candidate(Width(job, k))) <= MAX_PATCH_BYTES
  }

  ghost predicate ExactAt(job: Job, accepts: Oracle, k: nat) {
    Exact(job.Candidate(Width(job, k)), job.original, job.edited, job.target, accepts)
  }

  /** Every earlier context fits the limit, is not exact and leaves lines out. */
  ghost predicate Tried(job: Job, accepts: Oracle, k: nat) {
    forall i | 0 <= i < k :: WithinLimit(job, i) && !ExactAt(job, accepts, i) && Width(job, i) < job.Maximum()
  }

  /** The texts may be diffed at all. */
  predicate Editable(job: Job) {
    && Definitions.RelativePath(job.target).Success? && EditorText(job.original).Success? && EditorText(job.edited).Success?
    && job.original != job.edited
  }

  lemma {:induction false} WidensTo(job: Job, accepts: Oracle, k: nat)
    requires Editable(job) && Tried(job, accepts, k)
    ensures Built(job, accepts) == Widened(job, Width(job, k), accepts)
  {
    hide Exact, DiffText, EditorText;
    if k > 0 {
      WidensTo(job, accepts, k - 1);
      assert WithinLimit(job, k - 1) && !ExactAt(job, accepts, k - 1) && Width(job, k - 1) < job.Maximum();
    }
  }

  /**
   The builder returns the candidate of the first exact context, if the candidates up to it fit the limit. It reports the
   limit exactly at the first candidate that does not, and a context that is not unique only after the whole texts.
   */
  lemma BuiltAtFirstExact(job: Job, accepts: Oracle, k: nat)
    requires Editable(job) && Tried(job, accepts, k)
    ensures !WithinLimit(job, k) ==> Built(job, accepts) == Failure(Invalid(SizeLimit))
    ensures WithinLimit(job, k) && ExactAt(job, accepts, k) ==> Built(job, accepts) == Success(job.Candidate(Width(job, k)))
    ensures WithinLimit(job, k) && !ExactAt(job, accepts, k) && Width(job, k) >= job.Maximum() ==>
              Built(job, accepts) == Failure(Invalid(EditorContextNotUnique))
  {
    WidensTo(job, accepts, k);
    hide Exact, DiffText, Width, Built, EditorText;
  }

  lemma {:induction false} SomeContextDecides(job: Job, accepts: Oracle, k: nat) returns (last: nat)
    requires Tried(job, accepts, k)
    ensures Tried(job, accepts, last)
    ensures !WithinLimit(job, last) || ExactAt(job, accepts, last) || Width(job, last) >= job.Maximum()
    decreases job.Maximum() - Width(job, k)
  {
    hide Exact, DiffText;
    if !WithinLimit(job, k) || ExactAt(job, accepts, k) || Width(job, k) >= job.Maximum() {
      last := k;
    } else {
      last := SomeContextDecides(job, accepts, k + 1);
    }
  }

  /** And one of the contexts decides: the builder always ends, at the first that is too long, exact, or whole. */
  lemma BuilderDecides(job: Job, accepts: Oracle) returns (k: nat)
    requires Editable(job)
    ensures Tried(job, accepts, k)
    ensures
      if !WithinLimit(job, k) then Built(job, accepts) == Failure(Invalid(SizeLimit))
      else if ExactAt(job, accepts, k) then Built(job, accepts) == Success(job.Candidate(Width(job, k)))
      else Width(job, k) >= job.Maximum() && Built(job, accepts) == Failure(Invalid(EditorContextNotUnique))
  {
    hide Exact, DiffText, Width, Built, EditorText, ExactAt, WithinLimit;
    k := SomeContextDecides(job, accepts, 0);
    BuiltAtFirstExact(job, accepts, k);
  }

  /** A text the editor can carry: within its limit, with no NUL and no CR, and ending in a newline. */
  predicate EditableText(text: string) {
    text != "" && ByteLen(text) <= 512 * 1024 && '\0' !in text && '\r' !in text && text[|text| - 1] == '\n'
  }

  /** The builder sets out exactly for two different texts of this kind and a plain target, and fails at once otherwise. */
  lemma EditableExactly(job: Job, accepts: Oracle)
    ensures Editable(job) <==>
            Definitions.PlainTarget(job.target) && EditableText(job.original) && EditableText(job.edited) && job.original != job.edited
    ensures !Editable(job) ==> Built(job, accepts).Failure?
    ensures !Editable(job) && Definitions.PlainTarget(job.target) && EditableText(job.original) && EditableText(job.edited) ==>
              Built(job, accepts) == Failure(Invalid(EditorUnchanged))
  {
    Definitions.TargetPaths(job.target);
    if Definitions.RelativePath(job.target).Success? {
      Definitions.RelativeIsSafe(job.target);
      Definitions.RelativeIsItself(job.target);
    }
    hide Definitions.RelativePath, Definitions.PlainPart, Definitions.Unprotected, Definitions.Joined, Widened;
  }
}
