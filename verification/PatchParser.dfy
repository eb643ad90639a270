/**
 The strict unified-diff parser.

 Every loop is a method proved equal to the recursive function beside it. The third-party parser is a
 predicate over the normalised text and the hunk bodies: it can only reject.
 */
module PatchParser {
  import opened Models
  import opened LineEndings
  import opened PatchEngine

  const NO_NEWLINE := "\\ No newline at end of file"

  // ----- Text helpers

  /** The text up to the first separator. */
  function UpTo(s: string, sep: char): (r: string)
    ensures sep !in r && r <= s
  {
    if s == "" || s[0] == sep then "" else [s[0]] + UpTo(s[1..], sep)
  }

  lemma {:induction false} UpToIs(s: string, first: string, sep: char)
    requires sep !in first && first <= s && (first == s || s[|first|] == sep)
    ensures UpTo(s, sep) == first
  {
    if first != "" {
      assert s[0] == first[0] && first[0] in first;
      UpToIs(s[1..], first[1..], sep);
    }
  }

  lemma {:induction false} UpToStops(s: string, sep: char)
    ensures var first := UpTo(s, sep); first != s ==> |first| < |s| && s[|first|] == sep
  {
    if s != "" && s[0] != sep {
      UpToStops(s[1..], sep);
    }
  }

  /** All pieces between separators; a text without one is its only piece. */
  function Split(s: string, sep: char): seq<string>
    decreases |s|
  {
    var first := UpTo(s, sep);
    if first == s then [s] else [first] + Split(s[|first| + 1..], sep)
  }

  predicate IsDigit(c: char) {
    '0' <= c <= '9'
  }

  predicate IsHex(c: char) {
    IsDigit(c) || 'a' <= c <= 'f'
  }

  /** How many leading characters satisfy a test. */
  function Leading(s: string, test: char -> bool): (n: nat)
    ensures n <= |s|
    ensures forall i | 0 <= i < n :: test(s[i])
    ensures n < |s| ==> !test(s[n])
  {
    if s == "" || !test(s[0]) then 0 else 1 + Leading(s[1..], test)
  }

  /** The value of a decimal numeral. */
  function Value(digits: string): nat {
    if digits == "" then 0
    else 10 * Value(digits[..|digits| - 1]) + DigitValue(digits[|digits| - 1])
  }

  function DigitValue(c: char): nat {
    if IsDigit(c) then c as int - '0' as int else 0
  }

  // ----- Envelope

  function SafePath(path: string): Result<string> {
    if path == "" || exists part | part in Split(path, '/') :: part == "" || part == "." || part == ".." then
      Failure(PatchError(UnsafePath, SecurityError))
    else if exists c | c in path :: c == '\\' || c == '\0' || c == '\t' || c == '\n' || c == '\r' then
      Failure(PatchError(UnsafePath, SecurityError))
    else Success(path)
  }

  lemma HexDigits(c: char)
    ensures IsHex(c) <==> c in "0123456789abcdef"
  {
    var all := "0123456789abcdef";
    if IsDigit(c) {
      assert all[c as int - '0' as int] == c;
    } else if 'a' <= c <= 'f' {
      assert all[c as int - 'a' as int + 10] == c;
    }
  }

  /** `index <hex>..<hex>` with an optional regular-file mode. */
  predicate IsIndexLine(line: string) {
    && "index " <= line
    && var rest := line[6..];
       var n := Leading(rest, IsHex);
       && n > 0 && ".." <= rest[n..]
       && var tail := rest[n + 2..];
          var m := Leading(tail, IsHex);
          m > 0 && (tail[m..] == "" || tail[m..] == " 100644" || tail[m..] == " 100755")
  }

  function StripPair(from: string, to: string): (string, string) {
    if "a/" <= from && "b/" <= to then (from[2..], to[2..]) else (from, to)
  }

  /** The index of the first line after the file headers. */
  function Headers(lines: seq<string>, target: string): (r: Result<nat>)
    ensures r.Success? ==> r.value < |lines|
  {
    var git := lines != [] && "diff --git " <= lines[0];
    if git && lines[0] != "diff --git a/" + target + " b/" + target then Failure(Invalid(HeaderTargetMismatch))
    else
      var start := if !git then 0 else if |lines| > 1 && IsIndexLine(lines[1]) then 2 else 1;
      if |lines| < start + 3 || !("--- " <= lines[start]) || !("+++ " <= lines[start + 1]) then
        Failure(Invalid(InvalidHeaders))
      else
        var (from, to) := StripPair(UpTo(lines[start][4..], '\t'), UpTo(lines[start + 1][4..], '\t'));
        var first, second := SafePath(from), SafePath(to);
        if first.Failure? then Failure(first.error)
        else if from != target then Failure(Invalid(HeaderTargetMismatch))
        else if second.Failure? then Failure(second.error)
        else if to != target then Failure(Invalid(HeaderTargetMismatch))
        else Success(start + 2)
  }

  // ----- Hunk headers

  /** Python's int refuses longer numerals, with an error of its own. */
  const MAX_DIGITS: nat := 4300

  datatype Range = Range(start: nat, count: nat, rest: string, readable: bool)

  /** A start, an optional count (1 when left out), and what follows. */
  function ReadRange(s: string): Option<Range> {
    var n := Leading(s, IsDigit);
    if n == 0 then None
    else if n < |s| && s[n] == ',' then
      var tail := s[n + 1..];
      var m := Leading(tail, IsDigit);
      if m == 0 then None else Some(Range(Value(s[..n]), Value(tail[..m]), tail[m..], n <= MAX_DIGITS && m <= MAX_DIGITS))
    else Some(Range(Value(s[..n]), 1, s[n..], n <= MAX_DIGITS))
  }

  datatype HunkRange = HunkRange(oldStart: nat, oldCount: nat, newStart: nat, newCount: nat)

  function HunkHeader(line: string): Result<HunkRange> {
    var first := if "@@ -" <= line then ReadRange(line[4..]) else None;
    if first.None? || !(" +" <= first.value.rest) then Failure(Invalid(InvalidHunk))
    else
      var second := ReadRange(first.value.rest[2..]);
      if second.None? || !(" @@" <= second.value.rest) then Failure(Invalid(InvalidHunk))
      else
        var section := second.value.rest[3..];
        if section != "" && section[0] != ' ' then Failure(Invalid(InvalidHunk))
        else if !first.value.readable || !second.value.readable then Failure(Invalid(NumeralTooLong))
        else if first.value.start < 1 || first.value.count < 1 || second.value.start < 1 || second.value.count < 1 then
          Failure(Invalid(UnanchoredHunk))
        else Success(HunkRange(first.value.start, first.value.count, second.value.start, second.value.count))
  }

  // ----- Hunk bodies

  function AppendLine(lines: seq<string>, value: string): Result<seq<string>> {
    if lines != [] && !EndsLine(lines[|lines| - 1]) then Failure(Invalid(InvalidNewlineMarker))
    else Success(lines + [value])
  }

  /** The two sides read so far, the raw body lines, and where the reading stands. */
  datatype Body = Body(before: seq<string>, after: seq<string>, raw: seq<string>, next: nat)

  predicate InBody(lines: seq<string>, index: nat) {
    index < |lines| && !("@@ " <= lines[index])
  }

  predicate Marked(lines: seq<string>, index: nat) {
    index + 1 < |lines| && lines[index + 1] == NO_NEWLINE
  }

  /** One body line, with the newline marker after it if there is one. */
  function ReadLine(lines: seq<string>, b: Body): (r: Result<Body>)
    requires InBody(lines, b.next)
    ensures r.Success? ==> b.next < r.value.next <= |lines|
  {
    var line := lines[b.next];
    if line == "" || line[0] !in " +-" then Failure(Invalid(InvalidHunkBody))
    else
      var marked := Marked(lines, b.next);
      var value := if marked then line[1..] else line[1..] + "\n";
      var before := if line[0] in " -" then AppendLine(b.before, value) else Success(b.before);
      var after := if line[0] in " +" then AppendLine(b.after, value) else Success(b.after);
      if before.Failure? then Failure(before.error)
      else if after.Failure? then Failure(after.error)
      else Success(Body(before.value, after.value, b.raw + [line], b.next + if marked then 2 else 1))
  }

  function ReadBody(lines: seq<string>, b: Body): (r: Result<Body>)
    ensures r.Success? ==> b.next <= r.value.next
    decreases |lines| - b.next
  {
    if !InBody(lines, b.next) then Success(b)
    else
      var step := ReadLine(lines, b);
      if step.Failure? then step else ReadBody(lines, step.value)
  }

  datatype HunkRead = HunkRead(hunk: Hunk, raw: seq<string>, next: nat)

  function CheckCounts(b: Body, range: HunkRange): Result<HunkRead> {
    if |b.before| != range.oldCount || |b.after| != range.newCount then Failure(Invalid(HunkCountMismatch))
    else if b.before == b.after then Failure(Invalid(NoChange))
    else Success(HunkRead(Hunk(Join(b.before), Join(b.after)), b.raw, b.next))
  }

  function HunkAt(lines: seq<string>, index: nat, range: HunkRange): (r: Result<HunkRead>)
    ensures r.Success? ==> index <= r.value.next
  {
    var b := ReadBody(lines, Body([], [], [], index));
    if b.Failure? then Failure(b.error) else CheckCounts(b.value, range)
  }

  method ReadHunk(lines: seq<string>, start: nat, range: HunkRange) returns (r: Result<HunkRead>)
    ensures r == HunkAt(lines, start, range)
  {
    var b := Body([], [], [], start);
    while InBody(lines, b.next)
      invariant ReadBody(lines, Body([], [], [], start)) == ReadBody(lines, b)
      decreases |lines| - b.next
    {
      var step := ReadLine(lines, b);
      if step.Failure? {
        return Failure(step.error);
      }
      b := step.value;
    }
    r := CheckCounts(b, range);
  }

  // ----- The whole patch

  datatype Hunks = Hunks(records: seq<Hunk>, bodies: seq<seq<string>>, previousOld: nat, previousNew: nat)

  /** The hunk starting at a line, checked against the ranges already used. */
  function NextHunk(lines: seq<string>, index: nat, done: Hunks): (r: Result<(Hunks, nat)>)
    requires index < |lines|
    ensures r.Success? ==> index < r.value.1
  {
    var range := HunkHeader(lines[index]);
    if range.Failure? then Failure(range.error)
    else if range.value.oldStart < done.previousOld || range.value.newStart < done.previousNew then
      Failure(Invalid(OverlappingHunks))
    else
      var read := HunkAt(lines, index + 1, range.value);
      if read.Failure? then Failure(read.error)
      else
        var oldEnd, newEnd := range.value.oldStart + range.value.oldCount, range.value.newStart + range.value.newCount;
        Success((Hunks(done.records + [read.value.hunk], done.bodies + [read.value.raw], oldEnd, newEnd), read.value.next))
  }

  function ReadHunks(lines: seq<string>, index: nat, done: Hunks): Result<Hunks>
    decreases |lines| - index
  {
    if index >= |lines| then Success(done)
    else
      var step := NextHunk(lines, index, done);
      if step.Failure? then Failure(step.error) else ReadHunks(lines, step.value.1, step.value.0)
  }

  type Oracle = (string, seq<seq<string>>) -> bool

  function Concluded(text: string, target: string, hunks: Hunks, accepts: Oracle): Result<ParsedPatch> {
    if hunks.records == [] then Failure(Invalid(NoHunks))
    else if !accepts(text, hunks.bodies) then Failure(Invalid(ParserRejected))
    else Success(ParsedPatch(target, hunks.records))
  }

  const NoHunksYet := Hunks([], [], 0, 0)

  function ParseLines(text: string, target: string, accepts: Oracle): Result<ParsedPatch>
    requires EndsLine(text)
  {
    var lines := Split(text[..|text| - 1], '\n');
    var index := Headers(lines, target);
    if index.Failure? then Failure(index.error)
    else
      var hunks := ReadHunks(lines, index.value, NoHunksYet);
      if hunks.Failure? then Failure(hunks.error) else Concluded(text, target, hunks.value, accepts)
  }

  function Parsed(raw: string, target: string, accepts: Oracle): Result<ParsedPatch> {
    var path := SafePath(target);
    if path.Failure? then Failure(path.error)
    else
      var n := Normalize(raw, MAX_PATCH_BYTES);
      if n.Failure? then Failure(n.error)
      else if !EndsLine(n.value.text) then Failure(Invalid(UnterminatedDiff))
      else ParseLines(n.value.text, target, accepts)
  }

  method Parse(raw: string, target: string, accepts: Oracle) returns (r: Result<ParsedPatch>)
    ensures r == Parsed(raw, target, accepts)
  {
    hide SafePath, Normalize, Split, Headers, HunkHeader, HunkAt, Concluded;
    var path := SafePath(target);
    if path.Failure? {
      return Failure(path.error);
    }
    var n := Normalize(raw, MAX_PATCH_BYTES);
    if n.Failure? {
      return Failure(n.error);
    }
    var text := n.value.text;
    if !EndsLine(text) {
      return Failure(Invalid(UnterminatedDiff));
    }
    var lines := Split(text[..|text| - 1], '\n');
    var start := Headers(lines, target);
    if start.Failure? {
      return Failure(start.error);
    }
    var index, done := start.value, NoHunksYet;
    while index < |lines|
      invariant ReadHunks(lines, start.value, NoHunksYet) == ReadHunks(lines, index, done)
      decreases |lines| - index
    {
      var range := HunkHeader(lines[index]);
      if range.Failure? {
        return Failure(range.error);
      }
      if range.value.oldStart < done.previousOld || range.value.newStart < done.previousNew {
        return Failure(Invalid(OverlappingHunks));
      }
      var read := ReadHunk(lines, index + 1, range.value);
      if read.Failure? {
        return Failure(read.error);
      }
      done := Hunks(done.records + [read.value.hunk], done.bodies + [read.value.raw],
        range.value.oldStart + range.value.oldCount, range.value.newStart + range.value.newCount);
      index := read.value.next;
    }
    r := Concluded(text, target, done, accepts);
  }
}
