/**
 The builder is exact when it succeeds; and between texts that break only at LF its full context fails only when
 one contains the other.
 */
module BuilderComplete {
  import opened Models
  import opened LineEndings
  import opened PatchEngine
  import opened PatchParser
  import Definitions
  import opened PatchPrinter
  import opened PatchBuilder
  import LineSearch
  import PatchRoundTrip

  // ----- A built patch

  /** A built patch fits the limit and is exact: apply gives the edited bytes, revert the original ones. */
  lemma {:induction false} WidenedIsExact(job: Job, context: nat, accepts: Oracle)
    requires context > 0 && Widened(job, context, accepts).Success?
    ensures
      var candidate := Widened(job, context, accepts).value;
      && ByteLen(candidate) <= MAX_PATCH_BYTES
      && Exact(candidate, job.original, job.edited, job.target, accepts)
    decreases job.Maximum() - context
  {
    hide Exact;
    var candidate := job.Candidate(context);
    if !Exact(candidate, job.original, job.edited, job.target, accepts) {
      WidenedIsExact(job, Min(job.Maximum(), context * 2), accepts);
    }
  }

  lemma BuiltIsExact(job: Job, accepts: Oracle)
    requires Built(job, accepts).Success?
    ensures
      var candidate := Built(job, accepts).value;
      && ByteLen(candidate) <= MAX_PATCH_BYTES
      && Exact(candidate, job.original, job.edited, job.target, accepts)
  {
    hide Exact;
    if Definitions.RelativePath(job.target).Success? {
      WidenedIsExact(job, 3, accepts);
    }
  }

  /** The same patch round-trips the CRLF form of the file, as far as the size limit allows. */
  lemma BuiltRoundTripsCrlf(job: Job, accepts: Oracle, patch: ParsedPatch)
    requires Built(job, accepts).Success?
    requires Parsed(Built(job, accepts).value, job.target, accepts) == Success(patch)
    requires ByteLen(Expand(job.original)) <= MAX_TARGET_BYTES && ByteLen(Expand(job.edited)) <= MAX_TARGET_BYTES
    ensures
      && Inspection(patch.hunks, Expand(job.original)) == PatchInspection(Applicable, None, Some(Expand(job.edited)), None)
      && Inspection(patch.hunks, Expand(job.edited)) == PatchInspection(Applied, None, None, Some(Expand(job.original)))
  {
    hide Inspection, Parsed, Expand, ByteLen;
    BuiltIsExact(job, accepts);
    EditorTextIsClean(job.original);
    EditorTextIsClean(job.edited);
    PatchRoundTrip.InspectionCommutesWithCrlf(patch.hunks, job.original);
    PatchRoundTrip.InspectionCommutesWithCrlf(patch.hunks, job.edited);
  }

  lemma EditorTextIsClean(s: string)
    requires EditorText(s).Success?
    ensures PatchRoundTrip.CleanText(s) && '\n' in s && EndsLine(s) && ByteLen(s) <= MAX_TARGET_BYTES
  {
    assert s[|s| - 1] == '\n';
  }

  // ----- Lines without other breaks

  /** No character but LF breaks a line. */
  predicate PlainText(s: string) {
    forall c | c in s :: IsBreak(c) ==> c == '\n'
  }

  lemma {:induction false} PlainLines(s: string)
    requires PlainText(s)
    ensures SplitLines(s) == LineSearch.Lines(s)
    decreases |s|
  {
    if s != "" {
      var n := Leading(s, NotBreak);
      var end := if n < |s| then n + 1 else n;
      if n < |s| { assert s[n] in s; }
      forall i | 0 <= i < end - 1 ensures s[i] != '\n' {
        assert NotBreak(s[i]);
      }
      LineSearch.FirstLineIs(s, end);
      TailIsPlain(s, end);
      hide LineSearch.FirstLine, Leading, PlainText;
      PlainLines(s[end..]);
    }
  }

  lemma TailIsPlain(s: string, n: nat)
    requires n <= |s| && PlainText(s)
    ensures PlainText(s[n..])
  {
    forall c | c in s[n..] ensures c in s {
    }
  }

  /** A line as the printer sees it: without its newline. */
  function Chop(line: string): string {
    if line == "" then "" else line[..|line| - 1]
  }

  predicate PlainLine(line: string) {
    EndsLine(line) && '\n' !in Chop(line)
  }

  predicate PlainLineSeq(lines: seq<string>) {
    forall i | 0 <= i < |lines| :: PlainLine(lines[i])
  }

  lemma {:induction false} LinesArePlain(s: string)
    requires s == "" || EndsLine(s)
    ensures PlainLineSeq(LineSearch.Lines(s))
    decreases |s|
  {
    if s != "" {
      var n := LineSearch.FirstLine(s);
      var rest := s[n..];
      if rest != "" { assert rest[|rest| - 1] == s[|s| - 1]; }
      LinesArePlain(rest);
      assert Chop(s[..n]) == s[..n - 1];
      PlainLineCons(s[..n], LineSearch.Lines(rest));
    }
  }

  lemma PlainLineCons(line: string, rest: seq<string>)
    requires PlainLine(line) && PlainLineSeq(rest)
    ensures PlainLineSeq([line] + rest)
  {
    hide PlainLine;
  }

  // ----- The diff at full context

  function LinesOfKind(lines: seq<string>, kind: Kind): seq<BodyLine> {
    if lines == [] then [] else [BodyLine(kind, Chop(lines[0]), false)] + LinesOfKind(lines[1..], kind)
  }

  function OpLines(op: Op, a: seq<string>, b: seq<string>): seq<BodyLine> {
    if op.equal then LinesOfKind(Slice(a, op.i1, op.i2), Context)
    else LinesOfKind(Slice(a, op.i1, op.i2), Remove) + LinesOfKind(Slice(b, op.j1, op.j2), Add)
  }

  function BodyOf(ops: seq<Op>, a: seq<string>, b: seq<string>): seq<BodyLine> {
    if ops == [] then [] else OpLines(ops[0], a, b) + BodyOf(ops[1..], a, b)
  }

  lemma {:induction false} TerminateConcat(x: seq<string>, y: seq<string>)
    ensures Terminate(x + y) == Terminate(x) + Terminate(y)
  {
    if x == [] {
      assert x + y == y;
    } else {
      assert (x + y)[1..] == x[1..] + y;
      TerminateConcat(x[1..], y);
      assert x[0] + "\n" + (Terminate(x[1..]) + Terminate(y)) == x[0] + "\n" + Terminate(x[1..]) + Terminate(y);
    }
  }

  lemma {:induction false} PrintBodyConcat(x: seq<BodyLine>, y: seq<BodyLine>)
    ensures PrintBody(x + y) == PrintBody(x) + PrintBody(y)
  {
    if x == [] {
      assert x + y == y;
    } else {
      assert (x + y)[1..] == x[1..] + y;
      PrintBodyConcat(x[1..], y);
      SeqAssociative(PrintLine(x[0]), PrintBody(x[1..]), PrintBody(y));
    }
  }

  lemma {:induction false} SideConcat(x: seq<BodyLine>, y: seq<BodyLine>, other: Kind)
    ensures Side(x + y, other) == Side(x, other) + Side(y, other)
  {
    if x == [] {
      assert x + y == y;
    } else {
      assert (x + y)[1..] == x[1..] + y;
      SideConcat(x[1..], y, other);
      var first := if x[0].kind == other then [] else [LineValue(x[0])];
      hide LineValue;
      SeqAssociative(first, Side(x[1..], other), Side(y, other));
    }
  }

  /** Prefixed lines are printed body lines. */
  lemma {:induction false} PrefixedIsPrinted(lines: seq<string>, kind: Kind)
    requires PlainLineSeq(lines)
    ensures Prefixed(lines, KindChar(kind)) == Terminate(PrintBody(LinesOfKind(lines, kind)))
    ensures forall other :: Side(LinesOfKind(lines, kind), other) == if kind == other then [] else lines
  {
    if lines != [] {
      var line, body := lines[0], LinesOfKind(lines, kind);
      PrefixedIsPrinted(lines[1..], kind);
      assert PlainLine(line) && line == Chop(line) + "\n";
      assert body[1..] == LinesOfKind(lines[1..], kind);
      assert PrintBody(body) == [[KindChar(kind)] + Chop(line)] + PrintBody(body[1..]);
      assert PrintBody(body)[1..] == PrintBody(body[1..]);
      assert [KindChar(kind)] + Chop(line) + "\n" == [KindChar(kind)] + line;
      assert lines == [line] + lines[1..];
    }
  }

  lemma OpIsPrinted(op: Op, a: seq<string>, b: seq<string>)
    requires PlainLineSeq(a) && PlainLineSeq(b)
    ensures BodyText([op], a, b) == Terminate(PrintBody(OpLines(op, a, b)))
    ensures Side(OpLines(op, a, b), Add) == Slice(a, op.i1, op.i2)
    ensures Side(OpLines(op, a, b), Remove) == if op.equal then Slice(a, op.i1, op.i2) else Slice(b, op.j1, op.j2)
  {
    hide PlainLine;
    var removed, added := Slice(a, op.i1, op.i2), Slice(b, op.j1, op.j2);
    assert BodyText([op], a, b) ==
      (if op.equal then Prefixed(removed, ' ') else Prefixed(removed, '-') + Prefixed(added, '+')) by {
      assert [op][1..] == [];
    }
    if op.equal {
      PrefixedIsPrinted(removed, Context);
    } else {
      PrefixedIsPrinted(removed, Remove);
      PrefixedIsPrinted(added, Add);
      var x, y := LinesOfKind(removed, Remove), LinesOfKind(added, Add);
      PrintBodyConcat(x, y);
      TerminateConcat(PrintBody(x), PrintBody(y));
      SideConcat(x, y, Add);
      SideConcat(x, y, Remove);
    }
  }

  /** Opcodes covering both texts print both texts: one on each side. */
  lemma {:induction false} OpsArePrinted(ops: seq<Op>, a: seq<string>, b: seq<string>, i: nat, j: nat)
    requires PlainLineSeq(a) && PlainLineSeq(b) && i <= |a| && j <= |b| && Covers(ops, a, b, i, j)
    ensures BodyText(ops, a, b) == Terminate(PrintBody(BodyOf(ops, a, b)))
    ensures Side(BodyOf(ops, a, b), Add) == a[i..] && Side(BodyOf(ops, a, b), Remove) == b[j..]
  {
    hide OpLines, PlainLineSeq;
    if ops != [] {
      var op, x, y := ops[0], OpLines(ops[0], a, b), BodyOf(ops[1..], a, b);
      OpIsPrinted(op, a, b);
      OpsArePrinted(ops[1..], a, b, op.i2, op.j2);
      PrintBodyConcat(x, y);
      TerminateConcat(PrintBody(x), PrintBody(y));
      SideConcat(x, y, Add);
      SideConcat(x, y, Remove);
      BodyTextStep(ops, a, b);
      CutAt(a, op.i1, op.i2);
      CutAt(b, op.j1, op.j2);
    }
  }

  lemma CutAt(lines: seq<string>, i: nat, j: nat)
    requires i <= j <= |lines|
    ensures lines[i..] == lines[i..j] + lines[j..]
  {
  }

  lemma BodyTextStep(ops: seq<Op>, a: seq<string>, b: seq<string>)
    requires ops != []
    ensures BodyText(ops, a, b) == BodyText([ops[0]], a, b) + BodyText(ops[1..], a, b)
  {
    assert [ops[0]][1..] == [];
    var op := ops[0];
    var text := if op.equal then Prefixed(Slice(a, op.i1, op.i2), ' ')
                else Prefixed(Slice(a, op.i1, op.i2), '-') + Prefixed(Slice(b, op.j1, op.j2), '+');
    assert text + "" == text;
  }

  // ----- Decimal numerals

  lemma {:induction false} DecimalIsNumeral(n: nat)
    ensures Numeral(Decimal(n)) && Value(Decimal(n)) == n
  {
    var d := Decimal(n);
    if n < 10 {
      assert d[..0] == "" && Value("") == 0;
    } else {
      DecimalIsNumeral(n / 10);
      assert d[..|d| - 1] == Decimal(n / 10) && d[|d| - 1] == DigitChar(n % 10);
    }
  }

  /** The printed range of a whole text. */
  function WholeRange(n: nat): PrintedRange {
    PrintedRange("1", if n == 1 then None else Some(Decimal(n)))
  }

  function Tens(k: nat): nat {
    if k == 0 then 1 else 10 * Tens(k - 1)
  }

  lemma {:induction false} DecimalIsShort(n: nat, k: nat)
    requires k > 0 && n < Tens(k)
    ensures |Decimal(n)| <= k
  {
    if n >= 10 {
      assert k > 1 by { assert Tens(0) == 1 && Tens(1) == 10; }
      DecimalIsShort(n / 10, k - 1);
    }
  }

  lemma {:induction false} FewLines(s: string)
    ensures |SplitLines(s)| <= |s| <= ByteLen(s)
    decreases |s|
  {
    if s != "" {
      var n := Leading(s, NotBreak);
      var end := if n < |s| then n + 1 else n;
      FewLines(s[1..]);
      FewLines(s[end..]);
      assert SplitLines(s) == [s[..end]] + SplitLines(s[end..]);
    }
  }

  lemma MillionIsTens()
    ensures Tens(6) == 1_000_000
  {
    assert Tens(2) == 100 && Tens(4) == 10_000;
  }

  /** No edited text has a million lines, so its ranges have few digits. */
  lemma FewReadyLines(job: Job)
    requires EditorText(job.original).Success? && EditorText(job.edited).Success?
    ensures |job.Before()| < 1_000_000 && |job.After()| < 1_000_000
  {
    hide SplitLines, ByteLen;
    FewLines(job.original);
    FewLines(job.edited);
  }

  lemma WholeRangeText(n: nat)
    requires 0 < n < 1_000_000
    ensures RangeText(0, n) == PrintRange(WholeRange(n))
    ensures GoodRange(WholeRange(n)) && Count(WholeRange(n)) == n && Value(WholeRange(n).start) == 1
  {
    MillionIsTens();
    DecimalIsShort(n, 6);
    DecimalIsNumeral(n);
    DecimalIsNumeral(1);
    hide Tens;
    assert Decimal(1) == "1";
    if n == 1 {
      assert "1" + "" == "1";
    } else {
      assert "1" + ("," + Decimal(n)) == "1" + "," + Decimal(n);
    }
  }

  // ----- One group at full context

  lemma {:induction false} OpsFit(ops: seq<Op>, a: seq<string>, b: seq<string>, i: nat, j: nat, k: nat)
    requires Covers(ops, a, b, i, j) && k < |ops| && i <= |a| && j <= |b|
    ensures ops[k].i1 <= ops[k].i2 <= |a| && ops[k].j1 <= ops[k].j2 <= |b|
    ensures k == 0 ==> ops[k].i1 == i && ops[k].j1 == j
    ensures k == |ops| - 1 ==> ops[k].i2 == |a| && ops[k].j2 == |b|
  {
    if k > 0 {
      OpsFit(ops[1..], a, b, ops[0].i2, ops[0].j2, k - 1);
    } else if |ops| == 1 {
      assert ops[1..] == [];
    }
  }

  lemma {:induction false} OneGroup(ops: seq<Op>, n: nat, group: seq<Op>)
    requires forall k | 0 <= k < |ops| :: ops[k].i2 - ops[k].i1 <= n + n
    requires group + ops != [] && !(|group + ops| == 1 && (group + ops)[0].equal)
    ensures GroupFrom(ops, n, group) == [group + ops]
  {
    if ops == [] {
      assert group + ops == group;
    } else {
      assert group + ops == (group + [ops[0]]) + ops[1..];
      OneGroup(ops[1..], n, group + [ops[0]]);
    }
  }

  /** With as much context as there are lines, nothing is trimmed or split. */
  lemma FullContextIsOneGroup(ops: seq<Op>, a: seq<string>, b: seq<string>, n: nat)
    requires Covers(ops, a, b, 0, 0) && a != b && |a| <= n && |b| <= n
    ensures ops != [] && Groups(ops, n) == [ops]
  {
    assert ops != [];
    forall k | 0 <= k < |ops| ensures ops[k].i1 <= ops[k].i2 <= |a| && ops[k].j1 <= ops[k].j2 <= |b| {
      OpsFit(ops, a, b, 0, 0, k);
    }
    OpsFit(ops, a, b, 0, 0, 0);
    OpsFit(ops, a, b, 0, 0, |ops| - 1);
    assert TrimFirst(ops, n) == ops;
    assert TrimLast(ops, n) == ops;
    assert |ops| == 1 ==> a == a[0..|a|] && b == b[0..|b|];
    assert [] + ops == ops;
    OneGroup(ops, n, []);
  }

  // ----- The candidate at full context

  function WholeRecord(job: Job): Record {
    Record(WholeRange(|job.Before()|), WholeRange(|job.After()|), "", BodyOf(job.ops, job.Before(), job.After()))
  }

  const PlainStyle := Style(false, None, true, "", "")

  /** What the builder is given: edited texts it accepts, and a matcher that covers them. */
  predicate Ready(job: Job) {
    && Definitions.RelativePath(job.target).Success?
    && EditorText(job.original).Success? && EditorText(job.edited).Success? && job.original != job.edited
    && Covers(job.ops, job.Before(), job.After(), 0, 0)
  }

  /** The same for texts that break only at LF. */
  predicate PlainJob(job: Job) {
    Ready(job) && PlainText(job.original) && PlainText(job.edited)
  }

  lemma ReadyLines(job: Job)
    requires PlainJob(job)
    ensures PlainLineSeq(job.Before()) && PlainLineSeq(job.After()) && job.Before() != job.After()
    ensures Join(job.Before()) == job.original && Join(job.After()) == job.edited
    ensures job.Before() != [] && job.After() != []
  {
    hide PlainLineSeq, PlainText;
    EditorTextIsClean(job.original);
    EditorTextIsClean(job.edited);
    PlainLines(job.original);
    PlainLines(job.edited);
    LinesArePlain(job.original);
    LinesArePlain(job.edited);
    LineSearch.JoinLines(job.original);
    LineSearch.JoinLines(job.edited);
  }

  lemma WholeRecordIsGood(job: Job)
    requires PlainJob(job)
    ensures BodyText(job.ops, job.Before(), job.After()) == Terminate(PrintBody(WholeRecord(job).lines))
    ensures GoodRecord(WholeRecord(job)) && HunkOf(WholeRecord(job)) == Hunk(job.original, job.edited)
  {
    ReadyLines(job);
    FewReadyLines(job);
    ReadyCovers(job);
    hide PlainLineSeq, PlainJob, Ready, Covers, SplitLines, Join, EditorText, GoodRange, BodyText, PrintBody, Terminate;
    var a, b := job.Before(), job.After();
    OpsArePrinted(job.ops, a, b, 0, 0);
    assert a[0..] == a && b[0..] == b;
    WholeRangeText(|a|);
    WholeRangeText(|b|);
    PlainSidesAreGood(a);
    PlainSidesAreGood(b);
  }

  lemma FullCandidateIsPrinted(job: Job, n: nat)
    requires PlainJob(job) && n >= job.Maximum()
    ensures job.Candidate(n) == Print(PlainStyle, job.target, [WholeRecord(job)])
    ensures GoodRecord(WholeRecord(job)) && HunkOf(WholeRecord(job)) == Hunk(job.original, job.edited)
  {
    ReadyLines(job);
    FewReadyLines(job);
    ReadyCovers(job);
    hide PlainLineSeq, PlainJob, Ready, Covers, SplitLines, Groups, BodyText, HunkText, PrintHunkHeader, Join, GoodRecord, HunkOf;
    WholeRecordIsGood(job);
    FullContextIsOneGroup(job.ops, job.Before(), job.After(), n);
    FullHunkText(job, WholeRecord(job));
    CandidateLines(job, n, WholeRecord(job));
  }

  lemma ReadyCovers(job: Job)
    requires PlainJob(job)
    ensures Covers(job.ops, job.Before(), job.After(), 0, 0)
  {
  }

  lemma PlainSidesAreGood(lines: seq<string>)
    requires PlainLineSeq(lines)
    ensures OpenOnlyLast(lines)
  {
  }

  lemma FullHunkText(job: Job, r: Record)
    requires r.was == WholeRange(|job.Before()|) && r.becomes == WholeRange(|job.After()|) && r.section == "" && job.ops != []
    requires Covers(job.ops, job.Before(), job.After(), 0, 0) && 0 < |job.Before()| < 1_000_000 && 0 < |job.After()| < 1_000_000
    requires BodyText(job.ops, job.Before(), job.After()) == Terminate(PrintBody(r.lines))
    ensures HunkText(job.ops, job.Before(), job.After()) == PrintHunkHeader(r) + "\n" + Terminate(PrintBody(r.lines))
  {
    hide Covers, SplitLines, BodyText, Terminate, PrintBody, RangeText, PrintRange;
    var a, b, ops := job.Before(), job.After(), job.ops;
    OpsFit(ops, a, b, 0, 0, 0);
    OpsFit(ops, a, b, 0, 0, |ops| - 1);
    WholeRangeText(|a|);
    WholeRangeText(|b|);
    var x, y := PrintRange(r.was), PrintRange(r.becomes);
    HeaderText(x, y);
    assert r.section == "" && " @@" + r.section == " @@";
  }

  lemma HeaderText(x: string, y: string)
    ensures "@@ -" + x + " +" + y + " @@\n" == "@@ -" + (x + (" +" + (y + " @@"))) + "\n"
  {
  }

  lemma CandidateLines(job: Job, n: nat, r: Record)
    requires job.ops != [] && Groups(job.ops, n) == [job.ops]
    requires HunkText(job.ops, job.Before(), job.After()) == PrintHunkHeader(r) + "\n" + Terminate(PrintBody(r.lines))
    ensures job.Candidate(n) == Print(PlainStyle, job.target, [r])
  {
    hide SplitLines, HunkText, PrintHunkHeader, PrintBody, Groups;
    var lines, target := PrintBody(r.lines), job.target;
    var first, second, header := "--- a/" + target, "+++ b/" + target, PrintHunkHeader(r);
    assert HunkTexts([job.ops], job.Before(), job.After()) == header + "\n" + Terminate(lines) by {
      assert [job.ops][1..] == [];
      assert header + "\n" + Terminate(lines) + "" == header + "\n" + Terminate(lines);
    }
    PlainHeaders(target);
    assert PrintRecords([r]) == [header] + lines by {
      assert [r][1..] == [] && PrintRecord(r) + [] == PrintRecord(r);
    }
    assert PrintLines(PlainStyle, target, [r]) == [first, second] + ([header] + lines);
    ThreeLines(first, second, header, lines);
  }

  lemma PlainHeaders(target: string)
    ensures PrintHeaders(PlainStyle, target) == ["--- a/" + target, "+++ b/" + target]
  {
    assert "--- " + ("a/" + target + "") == "--- a/" + target;
    assert "+++ " + ("b/" + target + "") == "+++ b/" + target;
  }

  lemma ThreeLines(first: string, second: string, header: string, lines: seq<string>)
    ensures Terminate([first, second] + ([header] + lines)) ==
            first + "\n" + (second + "\n") + (header + "\n" + Terminate(lines))
  {
    TerminateConcat([first, second], [header] + lines);
    TerminateConcat([header], lines);
    TerminateConcat([first], [second]);
    assert [first, second] == [first] + [second];
    TerminateOne(first);
    TerminateOne(second);
    TerminateOne(header);
  }

  lemma TerminateOne(line: string)
    ensures Terminate([line]) == line + "\n"
  {
    assert Terminate([line][1..]) == "";
    assert line + "\n" + "" == line + "\n";
  }

  // ----- Parsing the candidate

  /** A line the format can carry. */
  predicate Carried(line: string) {
    '\n' !in line && PatchRoundTrip.CleanText(line)
  }

  predicate AllCarried(lines: seq<string>) {
    forall i | 0 <= i < |lines| :: Carried(lines[i])
  }

  lemma CarriedConcat(x: string, y: string)
    requires Carried(x) && Carried(y)
    ensures Carried(x + y)
  {
  }

  lemma {:induction false} TerminateIsClean(lines: seq<string>)
    requires AllCarried(lines)
    ensures PatchRoundTrip.CleanText(Terminate(lines))
  {
    if lines != [] {
      assert Carried(lines[0]);
      forall i | 0 <= i < |lines[1..]| ensures Carried(lines[1..][i]) {
        assert Carried(lines[i + 1]);
      }
      TerminateIsClean(lines[1..]);
    }
  }

  /** Lines of a clean text carry over without their newline. */
  predicate Choppable(lines: seq<string>) {
    forall i | 0 <= i < |lines| :: Carried(Chop(lines[i]))
  }

  lemma {:induction false} CleanLinesChop(s: string)
    requires PatchRoundTrip.CleanText(s) && (s == "" || EndsLine(s))
    ensures Choppable(LineSearch.Lines(s))
    decreases |s|
  {
    if s != "" {
      var n := LineSearch.FirstLine(s);
      var rest := s[n..];
      if rest != "" { assert rest[|rest| - 1] == s[|s| - 1]; }
      forall c | c in rest ensures c in s {
      }
      CleanLinesChop(rest);
      var lines := LineSearch.Lines(s);
      assert Chop(lines[0]) == s[..n - 1];
      forall c | c in s[..n - 1] ensures c in s {
      }
      forall i | 0 <= i < |lines| ensures Carried(Chop(lines[i])) {
        if i > 0 { assert lines[i] == LineSearch.Lines(rest)[i - 1]; }
      }
    }
  }

  predicate CarriedBody(body: seq<BodyLine>) {
    forall i | 0 <= i < |body| :: Carried(body[i].text) && !body[i].open
  }

  lemma {:induction false} KindLinesCarried(lines: seq<string>, kind: Kind)
    requires Choppable(lines)
    ensures CarriedBody(LinesOfKind(lines, kind))
  {
    hide Carried, Chop;
    if lines != [] {
      assert Carried(Chop(lines[0]));
      forall i | 0 <= i < |lines[1..]| ensures Carried(Chop(lines[1..][i])) {
        assert Carried(Chop(lines[i + 1]));
      }
      KindLinesCarried(lines[1..], kind);
    }
  }

  lemma ChoppableSlice(lines: seq<string>, i: nat, j: nat)
    requires Choppable(lines)
    ensures Choppable(Slice(lines, i, j))
  {
    if i <= j <= |lines| {
      forall k | 0 <= k < |lines[i..j]| ensures Carried(Chop(lines[i..j][k])) {
        assert Carried(Chop(lines[i + k]));
      }
    }
  }

  lemma {:induction false} BodyIsCarried(ops: seq<Op>, a: seq<string>, b: seq<string>)
    requires Choppable(a) && Choppable(b)
    ensures CarriedBody(BodyOf(ops, a, b))
  {
    hide Choppable, LinesOfKind, Carried;
    if ops != [] {
      var op := ops[0];
      ChoppableSlice(a, op.i1, op.i2);
      ChoppableSlice(b, op.j1, op.j2);
      KindLinesCarried(Slice(a, op.i1, op.i2), if op.equal then Context else Remove);
      KindLinesCarried(Slice(b, op.j1, op.j2), Add);
      BodyIsCarried(ops[1..], a, b);
    }
  }

  lemma {:induction false} PrintedBodyCarried(body: seq<BodyLine>)
    requires CarriedBody(body)
    ensures AllCarried(PrintBody(body))
  {
    if body != [] {
      var line := [KindChar(body[0].kind)] + body[0].text;
      assert Carried(body[0].text);
      forall i | 0 <= i < |body[1..]| ensures Carried(body[1..][i].text) && !body[1..][i].open {
        assert Carried(body[i + 1].text) && !body[i + 1].open;
      }
      PrintedBodyCarried(body[1..]);
      var rest := PrintBody(body[1..]);
      assert PrintBody(body) == [line] + rest;
      forall i | 0 <= i < |PrintBody(body)| ensures Carried(PrintBody(body)[i]) {
        if i > 0 { assert Carried(rest[i - 1]); }
      }
    }
  }

  lemma NumeralCarried(s: string)
    requires Numeral(s)
    ensures Carried(s)
  {
  }

  lemma RangeCarried(r: PrintedRange)
    requires GoodRange(r)
    ensures Carried(PrintRange(r))
  {
    NumeralCarried(r.start);
    if r.count.Some? {
      NumeralCarried(r.count.value);
      CarriedConcat(",", r.count.value);
      CarriedConcat(r.start, "," + r.count.value);
    } else {
      assert r.start + "" == r.start;
    }
  }

  lemma HeaderCarried(r: Record)
    requires GoodRange(r.was) && GoodRange(r.becomes) && Carried(r.section)
    ensures Carried(PrintHunkHeader(r))
  {
    RangeCarried(r.was);
    RangeCarried(r.becomes);
    hide GoodRange, PrintRange, Carried;
    assert Carried("@@ -") && Carried(" +") && Carried(" @@") by { FixedParts(); }
    CarriedConcat(" @@", r.section);
    CarriedConcat(PrintRange(r.becomes), " @@" + r.section);
    CarriedConcat(" +", PrintRange(r.becomes) + (" @@" + r.section));
    CarriedConcat(PrintRange(r.was), " +" + (PrintRange(r.becomes) + (" @@" + r.section)));
    CarriedConcat("@@ -", PrintRange(r.was) + (" +" + (PrintRange(r.becomes) + (" @@" + r.section))));
  }

  lemma FixedParts()
    ensures Carried("@@ -") && Carried(" +") && Carried(" @@") && Carried("") && Carried("--- a/") && Carried("+++ b/")
  {
  }

  lemma TextChops(s: string)
    requires EditorText(s).Success? && PlainText(s)
    ensures Choppable(SplitLines(s))
  {
    hide EditorText, PlainText, Choppable, SplitLines;
    EditorTextIsClean(s);
    PlainLines(s);
    CleanLinesChop(s);
  }

  lemma WholeRecordCarried(job: Job)
    requires PlainJob(job)
    ensures AllCarried(PrintBody(WholeRecord(job).lines))
  {
    hide PrintBody, BodyOf, SplitLines, Choppable, CarriedBody, Covers, PlainText, EditorText, AllCarried;
    TextChops(job.original);
    TextChops(job.edited);
    BodyIsCarried(job.ops, job.Before(), job.After());
    PrintedBodyCarried(WholeRecord(job).lines);
  }

  lemma WholeHeaderCarried(job: Job)
    requires PlainJob(job)
    ensures Carried(PrintHunkHeader(WholeRecord(job)))
  {
    hide PrintHunkHeader, PrintBody, BodyOf, Carried, SplitLines, GoodRange, Covers, PlainText, EditorText, HunkOf, Print;
    FullCandidateIsPrinted(job, job.Maximum());
    assert Carried("") by { FixedParts(); }
    HeaderCarried(WholeRecord(job));
  }

  lemma HeadersCarried(target: string)
    requires SafePath(target).Success?
    ensures AllCarried(PrintHeaders(PlainStyle, target))
  {
    hide Carried, SafePath, PrintHeaders;
    FixedParts();
    SafePathHasNoTab(target);
    assert Carried(target) by { TargetCarried(target); }
    CarriedConcat("--- a/", target);
    CarriedConcat("+++ b/", target);
    PlainHeaders(target);
  }

  lemma FullLinesCarried(job: Job)
    requires PlainJob(job)
    ensures AllCarried(PrintLines(PlainStyle, job.target, [WholeRecord(job)]))
  {
    hide PrintHunkHeader, PrintBody, PrintHeaders, BodyOf, Carried, AllCarried, SplitLines, Covers;
    var r := WholeRecord(job);
    WholeRecordCarried(job);
    WholeHeaderCarried(job);
    HeadersCarried(job.target);
    assert PrintRecords([r]) == [PrintHunkHeader(r)] + PrintBody(r.lines) by {
      assert [r][1..] == [] && PrintRecord(r) + [] == PrintRecord(r);
    }
    OneCarried(PrintHunkHeader(r));
    AllCarriedConcat([PrintHunkHeader(r)], PrintBody(r.lines));
    AllCarriedConcat(PrintHeaders(PlainStyle, job.target), PrintRecords([r]));
  }

  lemma OneCarried(line: string)
    requires Carried(line)
    ensures AllCarried([line])
  {
    hide Carried;
  }

  lemma TargetCarried(target: string)
    requires SafePath(target).Success?
    ensures Carried(target)
  {
  }

  lemma AllCarriedConcat(x: seq<string>, y: seq<string>)
    requires AllCarried(x) && AllCarried(y)
    ensures AllCarried(x + y)
  {
    hide Carried;
  }

  /** At full context the candidate is one hunk, from the whole original text to the whole edited one. */
  lemma FullCandidateParses(job: Job, n: nat, accepts: Oracle)
    requires PlainJob(job) && n >= job.Maximum() && ByteLen(job.Candidate(n)) <= MAX_PATCH_BYTES
    requires accepts(job.Candidate(n), BodiesOf([WholeRecord(job)]))
    ensures Parsed(job.Candidate(n), job.target, accepts) ==
            Success(ParsedPatch(job.target, [Hunk(job.original, job.edited)]))
  {
    hide GoodRecord, PrintHeaders, PrintRecords, HunkOf, Normalize, Parsed, Carried, Terminate;
    var r, text := WholeRecord(job), job.Candidate(n);
    FullCandidateIsPrinted(job, n);
    FullLinesCarried(job);
    TextIsTerminated(PlainStyle, job.target, [r]);
    TerminateIsClean(PrintLines(PlainStyle, job.target, [r]));
    NormalizeExact(text, MAX_PATCH_BYTES, Normalized(text, false));
    assert PrintsAs(text, job.target, PlainStyle, [r]) by { OneRecordPrints(job, text); }
    PrintParses(text, job.target, accepts, Normalized(text, false), PlainStyle, [r]);
    assert [r][1..] == [] && HunksOf([r]) == [HunkOf(r)];
  }

  lemma OneRecordPrints(job: Job, text: string)
    requires AllCarried(PrintLines(PlainStyle, job.target, [WholeRecord(job)]))
    requires GoodRecord(WholeRecord(job)) && text == Print(PlainStyle, job.target, [WholeRecord(job)])
    ensures PrintsAs(text, job.target, PlainStyle, [WholeRecord(job)])
  {
    hide GoodRecord, PrintLines, Print;
    var records, lines := [WholeRecord(job)], PrintLines(PlainStyle, job.target, [WholeRecord(job)]);
    assert records[1..] == [] && GoodRecords(records, 0, 0);
    assert GoodStyle(PlainStyle);
    forall i | 0 <= i < |lines| ensures '\n' !in lines[i] {
      assert Carried(lines[i]);
    }
  }

  // ----- Full context succeeds unless one text contains the other

  lemma WholeTextOnce(s: string)
    requires EndsLine(s)
    ensures Location(s, s) == Some(0)
  {
    assert s[..|s|] == s;
    LocationIsUnique(s, s, 0);
  }

  lemma WholeHunkRewrites(from: string, to: string)
    requires EndsLine(from) && EndsLine(to)
    ensures Rewrite([Hunk(from, to)], from) == Some(to)
    ensures Rewrite(SwapAll([Hunk(from, to)]), from).Some? <==> Location(from, to).Some?
  {
    WholeTextOnce(from);
    assert from == "" + from + "" && to == "" + to + "";
    PatchRoundTrip.OneHunk("", Hunk(from, to), "");
    PatchRoundTrip.SwapOne(Hunk(from, to));
    OneHunkAligns(Hunk(to, from), from);
  }

  lemma OneHunkAligns(h: Hunk, text: string)
    ensures Rewrite([h], text).Some? <==> Location(text, h.before).Some?
  {
    hide Location;
    assert [h][0] == h && [h][1..] == [];
    var start := Location(text, h.before);
    if start.Some? {
      assert Align([h][1..], text, start.value + |h.before|).Some?;
    }
  }

  lemma WholeHunkInspects(from: string, to: string)
    requires EditorText(from).Success? && EditorText(to).Success?
    ensures
      var r, h := Inspection([Hunk(from, to)], from), Hunk(from, to);
      if Location(from, to).Some? then r.reason == Some(AmbiguousDirection)
      else r == PatchInspection(Applicable, None, Some(to), None)
  {
    hide Rewrite, Location, SwapAll, Normalize, ByteLen;
    EditorTextIsClean(from);
    EditorTextIsClean(to);
    NormalizeExact(from, MAX_TARGET_BYTES, Normalized(from, false));
    WholeHunkRewrites(from, to);
  }

  /** Between texts that break only at LF, full context succeeds exactly when neither is a unique whole-line block of the other. */
  lemma PlainFullContextIff(job: Job, n: nat, accepts: Oracle)
    requires PlainJob(job) && n >= job.Maximum() && ByteLen(job.Candidate(n)) <= MAX_PATCH_BYTES
    requires accepts(job.Candidate(n), BodiesOf([WholeRecord(job)]))
    ensures Exact(job.Candidate(n), job.original, job.edited, job.target, accepts) <==>
            Location(job.original, job.edited).None? && Location(job.edited, job.original).None?
  {
    hide Inspection, Location, Parsed, EditorText;
    var h := Hunk(job.original, job.edited);
    FullCandidateParses(job, n, accepts);
    WholeHunkInspects(job.original, job.edited);
    WholeHunkInspects(job.edited, job.original);
    PatchRoundTrip.SwapOne(Swap(h));
    PatchRoundTrip.InspectionMirrors([Swap(h)], job.edited);
  }

  lemma {:induction false} GivesUpAtFullContext(job: Job, context: nat, accepts: Oracle) returns (n: nat)
    requires context > 0 && Widened(job, context, accepts) == Failure(Invalid(EditorContextNotUnique))
    ensures n >= job.Maximum() && ByteLen(job.Candidate(n)) <= MAX_PATCH_BYTES
    ensures !Exact(job.Candidate(n), job.original, job.edited, job.target, accepts)
    decreases job.Maximum() - context
  {
    hide Exact;
    if context >= job.Maximum() {
      n := context;
    } else {
      n := GivesUpAtFullContext(job, Min(job.Maximum(), context * 2), accepts);
    }
  }
}
