/**
 A printer of unified diffs, and the proof that the parser accepts exactly what it prints.

 A record keeps everything the text may vary: numerals as written, an optional count, a section heading,
 timestamps, the `diff --git` preamble. The printer forgets none of it, so the theorems characterise the
 accepted language.
 */
module PatchPrinter {
  import opened Models
  import opened LineEndings
  import opened PatchEngine
  import opened PatchParser

  datatype Kind = Context | Remove | Add

  /** One body line; an open one is followed by the no-newline marker. */
  datatype BodyLine = BodyLine(kind: Kind, text: string, open: bool)

  datatype PrintedRange = PrintedRange(start: string, count: Option<string>)

  datatype Record = Record(was: PrintedRange, becomes: PrintedRange, section: string, lines: seq<BodyLine>)

  /** The blobs of a git patch, and the file mode if it is given. */
  datatype IndexLine = IndexLine(was: string, becomes: string, mode: string)

  datatype Style = Style(git: bool, index: Option<IndexLine>, prefixed: bool, stamp: string, newStamp: string)

  // ----- Printing

  function KindChar(k: Kind): char {
    match k case Context => ' ' case Remove => '-' case Add => '+'
  }

  function PrintLine(l: BodyLine): seq<string> {
    [[KindChar(l.kind)] + l.text] + if l.open then [NO_NEWLINE] else []
  }

  function PrintBody(lines: seq<BodyLine>): seq<string> {
    if lines == [] then [] else PrintLine(lines[0]) + PrintBody(lines[1..])
  }

  function PrintRange(r: PrintedRange): string {
    r.start + if r.count.Some? then "," + r.count.value else ""
  }

  function PrintHunkHeader(r: Record): string {
    "@@ -" + (PrintRange(r.was) + (" +" + (PrintRange(r.becomes) + (" @@" + r.section))))
  }

  function PrintRecord(r: Record): seq<string> {
    [PrintHunkHeader(r)] + PrintBody(r.lines)
  }

  function PrintRecords(records: seq<Record>): seq<string> {
    if records == [] then [] else PrintRecord(records[0]) + PrintRecords(records[1..])
  }

  function PrintIndex(index: IndexLine): string {
    "index " + (index.was + (".." + (index.becomes + index.mode)))
  }

  function PrintHeaders(style: Style, target: string): seq<string> {
    (if !style.git then [] else ["diff --git a/" + target + " b/" + target] +
                                if style.index.Some? then [PrintIndex(style.index.value)] else []) +
    ["--- " + ((if style.prefixed then "a/" else "") + target + style.stamp),
     "+++ " + ((if style.prefixed then "b/" else "") + target + style.newStamp)]
  }

  function PrintLines(style: Style, target: string, records: seq<Record>): seq<string> {
    PrintHeaders(style, target) + PrintRecords(records)
  }

  /** Every line with its newline. */
  function Terminate(lines: seq<string>): string {
    if lines == [] then "" else lines[0] + "\n" + Terminate(lines[1..])
  }

  function Print(style: Style, target: string, records: seq<Record>): string {
    Terminate(PrintLines(style, target, records))
  }

  // ----- What a record means

  function LineValue(l: BodyLine): string {
    if l.open then l.text else l.text + "\n"
  }

  /** The lines of one side: all but those of the other kind. */
  function Side(lines: seq<BodyLine>, other: Kind): seq<string> {
    if lines == [] then []
    else (if lines[0].kind == other then [] else [LineValue(lines[0])]) + Side(lines[1..], other)
  }

  function Before(r: Record): seq<string> {
    Side(r.lines, Add)
  }

  function After(r: Record): seq<string> {
    Side(r.lines, Remove)
  }

  function HunkOf(r: Record): Hunk {
    Hunk(Join(Before(r)), Join(After(r)))
  }

  function HunksOf(records: seq<Record>): seq<Hunk> {
    if records == [] then [] else [HunkOf(records[0])] + HunksOf(records[1..])
  }

  function RawBody(lines: seq<BodyLine>): seq<string> {
    if lines == [] then [] else [[KindChar(lines[0].kind)] + lines[0].text] + RawBody(lines[1..])
  }

  function BodiesOf(records: seq<Record>): seq<seq<string>> {
    if records == [] then [] else [RawBody(records[0].lines)] + BodiesOf(records[1..])
  }

  // ----- Well-formedness

  predicate Numeral(s: string) {
    s != "" && forall i | 0 <= i < |s| :: IsDigit(s[i])
  }

  function Count(r: PrintedRange): nat {
    if r.count.Some? then Value(r.count.value) else 1
  }

  predicate Short(r: PrintedRange) {
    |r.start| <= MAX_DIGITS && (r.count.Some? ==> |r.count.value| <= MAX_DIGITS)
  }

  predicate GoodRange(r: PrintedRange) {
    Numeral(r.start) && (r.count.Some? ==> Numeral(r.count.value)) && Short(r) && Value(r.start) >= 1 && Count(r) >= 1
  }

  /** Only the last line of a side may lack its newline. */
  predicate OpenOnlyLast(side: seq<string>) {
    forall i | 0 <= i < |side| - 1 :: EndsLine(side[i])
  }

  predicate GoodRecord(r: Record) {
    && GoodRange(r.was) && GoodRange(r.becomes)
    && (r.section == "" || r.section[0] == ' ')
    && Count(r.was) == |Before(r)| && Count(r.becomes) == |After(r)|
    && OpenOnlyLast(Before(r)) && OpenOnlyLast(After(r))
    && Before(r) != After(r)
  }

  /** Ranges in order, none starting before the end of the previous one. */
  predicate GoodRecords(records: seq<Record>, previousOld: nat, previousNew: nat) {
    records != [] ==>
      var r := records[0];
      && GoodRecord(r)
      && previousOld <= Value(r.was.start) && previousNew <= Value(r.becomes.start)
      && GoodRecords(records[1..], Value(r.was.start) + Count(r.was), Value(r.becomes.start) + Count(r.becomes))
  }

  predicate Stamp(s: string) {
    s == "" || s[0] == '\t'
  }

  predicate Hexadecimal(s: string) {
    s != "" && forall i | 0 <= i < |s| :: s[i] in "0123456789abcdef"
  }

  /** Two abbreviated hashes, and no mode or that of a regular file. */
  predicate GoodIndex(index: IndexLine) {
    Hexadecimal(index.was) && Hexadecimal(index.becomes) && (index.mode == "" || index.mode == " 100644" || index.mode == " 100755")
  }

  predicate GoodStyle(style: Style) {
    && Stamp(style.stamp) && Stamp(style.newStamp)
    && (style.index.Some? ==> style.git && GoodIndex(style.index.value))
  }

  /** A text that prints a patch with these hunks and bodies. */
  ghost predicate PrintsAs(text: string, target: string, style: Style, records: seq<Record>) {
    && GoodStyle(style) && records != [] && GoodRecords(records, 0, 0)
    && (forall i | 0 <= i < |PrintLines(style, target, records)| :: '\n' !in PrintLines(style, target, records)[i])
    && text == Print(style, target, records)
  }

  // ----- Lines and text

  lemma {:induction false} SplitTerminated(lines: seq<string>)
    requires lines != [] && forall i | 0 <= i < |lines| :: '\n' !in lines[i]
    ensures var t := Terminate(lines); EndsLine(t) && Split(t[..|t| - 1], '\n') == lines
  {
    var t := Terminate(lines);
    if |lines| == 1 {
      assert Terminate(lines[1..]) == "" && t[..|t| - 1] == lines[0];
      UpToIs(lines[0], lines[0], '\n');
    } else {
      SplitTerminated(lines[1..]);
      var u := Terminate(lines[1..]);
      OneLineMore(lines[0], u);
      SplitAfter(lines[0], u[..|u| - 1]);
      assert lines == [lines[0]] + lines[1..];
    }
  }

  lemma OneLineMore(first: string, u: string)
    requires EndsLine(u)
    ensures var t := first + "\n" + u; EndsLine(t) && t[..|t| - 1] == first + "\n" + u[..|u| - 1]
  {
    var t := first + "\n" + u;
    assert t[|t| - 1] == u[|u| - 1];
  }

  lemma SplitAfter(first: string, s: string)
    requires '\n' !in first
    ensures Split(first + "\n" + s, '\n') == [first] + Split(s, '\n')
  {
    var t := first + "\n" + s;
    UpToIs(t, first, '\n');
    assert t != first && t[|first| + 1..] == s;
  }

  lemma {:induction false} TerminateMore(first: string, lines: seq<string>)
    ensures Terminate([first] + lines) == first + "\n" + Terminate(lines)
  {
    assert ([first] + lines)[1..] == lines;
  }

  lemma SplitMore(s: string)
    requires UpTo(s, '\n') != s
    ensures
      var first := UpTo(s, '\n');
      |first| < |s| && s == first + "\n" + s[|first| + 1..] && Split(s, '\n') == [first] + Split(s[|first| + 1..], '\n')
  {
    UpToStops(s, '\n');
  }

  lemma {:induction false} SplitTerminates(s: string)
    ensures Split(s, '\n') != [] && Terminate(Split(s, '\n')) == s + "\n"
    ensures forall i | 0 <= i < |Split(s, '\n')| :: '\n' !in Split(s, '\n')[i]
    decreases |s|
  {
    var first := UpTo(s, '\n');
    if first == s {
      assert Split(s, '\n') == [s] && [s] + [] == [s];
      TerminateMore(s, []);
    } else {
      SplitMore(s);
      var rest := s[|first| + 1..];
      SplitTerminates(rest);
      hide Split, Terminate, UpTo;
      TerminateMore(first, Split(rest, '\n'));
      SeqAssociative(first + "\n", rest, "\n");
    }
  }

  // ----- Ranges

  lemma {:induction false} LeadingIs(s: string, n: nat, test: char -> bool)
    requires n <= |s| && (forall i | 0 <= i < n :: test(s[i])) && (n < |s| ==> !test(s[n]))
    ensures Leading(s, test) == n
  {
    if n > 0 {
      LeadingIs(s[1..], n - 1, test);
    }
  }

  lemma NumeralLeads(digits: string, rest: string)
    requires Numeral(digits) && rest != "" && !IsDigit(rest[0])
    ensures Leading(digits + rest, IsDigit) == |digits|
    ensures (digits + rest)[..|digits|] == digits && (digits + rest)[|digits|..] == rest
  {
    LeadingIs(digits + rest, |digits|, IsDigit);
  }

  lemma PlainRangeReads(start: string, rest: string)
    requires Numeral(start) && rest != "" && rest[0] == ' '
    ensures ReadRange(start + rest) == Some(Range(Value(start), 1, rest, |start| <= MAX_DIGITS))
  {
    NumeralLeads(start, rest);
    NotEmpty(start);
    hide Value, Leading, Numeral;
  }

  lemma CountedRangeReads(start: string, count: string, rest: string)
    requires Numeral(start) && Numeral(count) && rest != "" && rest[0] == ' '
    ensures ReadRange(start + ("," + (count + rest))) ==
            Some(Range(Value(start), Value(count), rest, |start| <= MAX_DIGITS && |count| <= MAX_DIGITS))
  {
    var tail := count + rest;
    NumeralLeads(start, "," + tail);
    NumeralLeads(count, rest);
    AfterComma(start, tail);
    NotEmpty(start);
    NotEmpty(count);
    hide Value, Leading, Numeral;
  }

  lemma RangeReads(r: PrintedRange, rest: string)
    requires Numeral(r.start) && (r.count.Some? ==> Numeral(r.count.value))
    requires rest != "" && rest[0] == ' '
    ensures ReadRange(PrintRange(r) + rest) == Some(Range(Value(r.start), Count(r), rest, Short(r)))
  {
    hide Value, ReadRange, Numeral;
    if r.count.Some? {
      SeqAssociative(",", r.count.value, rest);
      SeqAssociative(r.start, "," + r.count.value, rest);
      CountedRangeReads(r.start, r.count.value, rest);
    } else {
      assert r.start + "" == r.start;
      PlainRangeReads(r.start, rest);
    }
  }

  lemma AfterComma(digits: string, tail: string)
    ensures (digits + ("," + tail))[|digits|] == ',' && (digits + ("," + tail))[|digits| + 1..] == tail
  {
  }

  lemma NotEmpty(digits: string)
    requires Numeral(digits)
    ensures |digits| > 0
  {
  }

  lemma CutNumeral(s: string, n: nat)
    requires n <= |s| && forall i | 0 <= i < n :: IsDigit(s[i])
    ensures s[..n] + s[n..] == s && (n > 0 ==> Numeral(s[..n]))
  {
  }

  lemma CountedWasPrinted(s: string, n: nat) returns (r: PrintedRange)
    requires n == Leading(s, IsDigit) && 0 < n < |s| && s[n] == ',' && ReadRange(s).Some?
    ensures Numeral(r.start) && r.count.Some? && Numeral(r.count.value)
    ensures
      var g := ReadRange(s).value;
      s == r.start + ("," + (r.count.value + g.rest)) && g == Range(Value(r.start), Value(r.count.value), g.rest, Short(r))
  {
    var tail := s[n + 1..];
    var m := Leading(tail, IsDigit);
    CutNumeral(s, n);
    CutNumeral(tail, m);
    hide Value, Leading, Numeral;
    r := PrintedRange(s[..n], Some(tail[..m]));
    assert s[n..] == "," + tail;
  }

  lemma RangeWasPrinted(s: string) returns (r: PrintedRange)
    requires ReadRange(s).Some?
    ensures Numeral(r.start) && (r.count.Some? ==> Numeral(r.count.value))
    ensures var g := ReadRange(s).value; s == PrintRange(r) + g.rest && g == Range(Value(r.start), Count(r), g.rest, Short(r))
  {
    var n := Leading(s, IsDigit);
    if n < |s| && s[n] == ',' {
      r := CountedWasPrinted(s, n);
      var rest := ReadRange(s).value.rest;
      hide Value, Leading, Numeral, ReadRange;
      SeqAssociative(",", r.count.value, rest);
      SeqAssociative(r.start, "," + r.count.value, rest);
    } else {
      CutNumeral(s, n);
      hide Value, Leading, Numeral;
      r := PrintedRange(s[..n], None);
      assert s[..n] + "" == s[..n];
    }
  }

  lemma OtherStart(a: string, b: string, s: string)
    requires a <= s && a != "" && b != "" && a[0] != b[0]
    ensures !(b <= s)
  {
    assert s[0] == a[0];
  }

  lemma Drop(a: string, b: string)
    ensures a <= a + b && (a + b)[|a|..] == b
  {
  }

  lemma HunkHeaderReads(r: Record)
    requires GoodRange(r.was) && GoodRange(r.becomes) && (r.section == "" || r.section[0] == ' ')
    ensures "@@ " <= PrintHunkHeader(r)
    ensures HunkHeader(PrintHunkHeader(r)) ==
            Success(HunkRange(Value(r.was.start), Count(r.was), Value(r.becomes.start), Count(r.becomes)))
  {
    hide ReadRange, PrintRange, Value, Numeral;
    var end := " @@" + r.section;
    var second := PrintRange(r.becomes) + end;
    var rest := " +" + second;
    Drop("@@ -", PrintRange(r.was) + rest);
    Drop(" +", second);
    Drop(" @@", r.section);
    assert PrintHunkHeader(r)[..3] == "@@ ";
    RangeReads(r.was, rest);
    RangeReads(r.becomes, end);
  }

  lemma HunkHeaderWasPrinted(line: string) returns (was: PrintedRange, becomes: PrintedRange, section: string)
    requires HunkHeader(line).Success?
    ensures GoodRange(was) && GoodRange(becomes) && (section == "" || section[0] == ' ')
    ensures line == PrintHunkHeader(Record(was, becomes, section, []))
    ensures HunkHeader(line).value == HunkRange(Value(was.start), Count(was), Value(becomes.start), Count(becomes))
  {
    hide ReadRange, PrintRange, Value, Numeral;
    was := RangeWasPrinted(line[4..]);
    var rest := ReadRange(line[4..]).value.rest;
    becomes := RangeWasPrinted(rest[2..]);
    var end := ReadRange(rest[2..]).value.rest;
    section := end[3..];
    assert end == " @@" + section && rest == " +" + rest[2..] && line == "@@ -" + line[4..];
  }

  // ----- Bodies

  /** The lines from an index on. */
  predicate From(lines: seq<string>, index: nat, rest: seq<string>) {
    index <= |lines| && lines[index..] == rest
  }

  predicate NoMarker(rest: seq<string>) {
    rest != [] ==> rest[0] != NO_NEWLINE
  }

  /** The body read so far extended by one line. */
  function Extend(b: Body, l: BodyLine): Body {
    Body(if l.kind == Add then b.before else b.before + [LineValue(l)],
         if l.kind == Remove then b.after else b.after + [LineValue(l)],
         b.raw + [[KindChar(l.kind)] + l.text], b.next + if l.open then 2 else 1)
  }

  predicate CanAppend(side: seq<string>) {
    side == [] || EndsLine(side[|side| - 1])
  }

  lemma PrintedLineIs(lines: seq<string>, i: nat, l: BodyLine, rest: seq<string>)
    requires From(lines, i, PrintLine(l) + rest) && NoMarker(rest)
    ensures i < |lines| && lines[i] == [KindChar(l.kind)] + l.text && Marked(lines, i) == l.open
    ensures From(lines, if l.open then i + 2 else i + 1, rest)
  {
    var printed := PrintLine(l) + rest;
    assert lines[i] == lines[i..][0] == printed[0];
    if l.open {
      assert lines[i + 1] == lines[i..][1] == printed[1];
      assert lines[i + 2..] == lines[i..][2..] == printed[2..] == rest;
    } else {
      assert lines[i + 1..] == lines[i..][1..] == printed[1..] == rest;
      if i + 1 < |lines| { assert lines[i + 1] == rest[0]; }
    }
  }

  lemma KindSides(kind: Kind)
    ensures KindChar(kind) in " +-"
    ensures KindChar(kind) in " -" <==> kind != Add
    ensures KindChar(kind) in " +" <==> kind != Remove
  {
    assert " +-"[0] == ' ' && " +-"[1] == '+' && " +-"[2] == '-';
    assert " -"[0] == ' ' && " -"[1] == '-';
    assert " +"[0] == ' ' && " +"[1] == '+';
  }

  lemma Appended(side: seq<string>, value: string)
    requires CanAppend(side)
    ensures AppendLine(side, value) == Success(side + [value])
  {
  }

  lemma LineReads(lines: seq<string>, b: Body, l: BodyLine, rest: seq<string>)
    requires From(lines, b.next, PrintLine(l) + rest) && NoMarker(rest)
    requires l.kind == Add || CanAppend(b.before)
    requires l.kind == Remove || CanAppend(b.after)
    ensures InBody(lines, b.next) && ReadLine(lines, b) == Success(Extend(b, l))
    ensures From(lines, Extend(b, l).next, rest)
  {
    PrintedLineIs(lines, b.next, l, rest);
    KindSides(l.kind);
    if l.kind != Add { Appended(b.before, LineValue(l)); }
    if l.kind != Remove { Appended(b.after, LineValue(l)); }
    var line := lines[b.next];
    OtherStart([KindChar(l.kind)], "@@ ", line);
    hide From, Marked, PrintLine, NoMarker, CanAppend, AppendLine, KindChar;
    assert line[1..] == l.text && line[0] == KindChar(l.kind);
  }

  lemma LineWasPrinted(lines: seq<string>, b: Body) returns (l: BodyLine)
    requires InBody(lines, b.next) && ReadLine(lines, b).Success?
    ensures ReadLine(lines, b) == Success(Extend(b, l))
    ensures lines[b.next..Extend(b, l).next] == PrintLine(l)
    ensures l.kind == Add || CanAppend(b.before)
    ensures l.kind == Remove || CanAppend(b.after)
  {
    hide EndsLine, InBody;
    var line := lines[b.next];
    l := LineOf(line, Marked(lines, b.next));
    PrintedAt(lines, b.next, l);
  }

  lemma LineOf(line: string, open: bool) returns (l: BodyLine)
    requires line != "" && line[0] in " +-"
    ensures l.open == open && l.text == line[1..] && KindChar(l.kind) == line[0] && line == [KindChar(l.kind)] + l.text
  {
    var kind := if line[0] == ' ' then Context else if line[0] == '-' then Remove else Add;
    l := BodyLine(kind, line[1..], open);
  }

  lemma PrintedAt(lines: seq<string>, i: nat, l: BodyLine)
    requires i < |lines| && lines[i] == [KindChar(l.kind)] + l.text && l.open == Marked(lines, i)
    ensures lines[i..if l.open then i + 2 else i + 1] == PrintLine(l)
  {
    if l.open {
      assert lines[i..i + 2] == [lines[i]] + [lines[i + 1]];
    } else {
      assert lines[i..i + 1] == [lines[i]] + [];
    }
  }

  lemma {:induction false} PrintedBodyStarts(lines: seq<BodyLine>, tail: seq<string>)
    requires tail == [] || "@@ " <= tail[0]
    ensures NoMarker(PrintBody(lines) + tail)
  {
    if lines == [] {
      assert PrintBody(lines) + tail == tail;
      if tail != [] { assert tail[0][0] == '@' && NO_NEWLINE[0] == '\\'; }
    } else {
      var first := (PrintBody(lines) + tail)[0];
      assert first == [KindChar(lines[0].kind)] + lines[0].text;
      assert first[0] != NO_NEWLINE[0];
    }
  }

  /** The line and the side it belongs to can be appended: no open line comes earlier. */
  lemma SideAppends(side: seq<string>, lines: seq<BodyLine>, other: Kind)
    requires lines != [] && OpenOnlyLast(side + Side(lines, other))
    ensures lines[0].kind == other || CanAppend(side)
    ensures
      var value := if lines[0].kind == other then side else side + [LineValue(lines[0])];
      value + Side(lines[1..], other) == side + Side(lines, other)
  {
    hide LineValue;
    if lines[0].kind == other {
      assert [] + Side(lines[1..], other) == Side(lines[1..], other);
    } else {
      SeqAssociative(side, [LineValue(lines[0])], Side(lines[1..], other));
      if side != [] {
        assert (side + Side(lines, other))[|side| - 1] == side[|side| - 1];
      }
    }
  }

  lemma {:induction false} BodyReads(lines: seq<string>, b: Body, body: seq<BodyLine>, tail: seq<string>)
    requires From(lines, b.next, PrintBody(body) + tail) && (tail == [] || "@@ " <= tail[0])
    requires OpenOnlyLast(b.before + Side(body, Add)) && OpenOnlyLast(b.after + Side(body, Remove))
    ensures
      ReadBody(lines, b) ==
      Success(Body(b.before + Side(body, Add), b.after + Side(body, Remove), b.raw + RawBody(body), |lines| - |tail|))
    decreases body
  {
    hide ReadLine, LineValue, OpenOnlyLast, PrintLine;
    if body == [] {
      assert PrintBody(body) + tail == tail && !InBody(lines, b.next);
      assert b.before + [] == b.before && b.after + [] == b.after && b.raw + [] == b.raw;
    } else {
      var rest := PrintBody(body[1..]) + tail;
      SeqAssociative(PrintLine(body[0]), PrintBody(body[1..]), tail);
      PrintedBodyStarts(body[1..], tail);
      SideAppends(b.before, body, Add);
      SideAppends(b.after, body, Remove);
      LineReads(lines, b, body[0], rest);
      BodyReads(lines, Extend(b, body[0]), body[1..], tail);
      SeqAssociative(b.raw, [[KindChar(body[0].kind)] + body[0].text], RawBody(body[1..]));
    }
  }

  /** Appending where it is allowed keeps open lines last. */
  lemma AppendKeeps(side: seq<string>, l: BodyLine, other: Kind)
    requires OpenOnlyLast(side) && (l.kind == other || CanAppend(side))
    ensures OpenOnlyLast(if l.kind == other then side else side + [LineValue(l)])
  {
    hide LineValue, EndsLine;
  }

  /** Reading one line and then the rest adds up. */
  lemma SideAdds(side: seq<string>, l: BodyLine, other: Kind, rest: seq<BodyLine>)
    ensures
      var next := if l.kind == other then side else side + [LineValue(l)];
      next + Side(rest, other) == side + Side([l] + rest, other)
  {
    hide LineValue;
    assert ([l] + rest)[1..] == rest;
    if l.kind == other {
      assert [] + Side(rest, other) == Side(rest, other);
    } else {
      SeqAssociative(side, [LineValue(l)], Side(rest, other));
    }
  }

  lemma {:induction false} BodyWasPrinted(lines: seq<string>, b: Body) returns (body: seq<BodyLine>)
    requires b.next <= |lines| && ReadBody(lines, b).Success?
    requires OpenOnlyLast(b.before) && OpenOnlyLast(b.after)
    ensures
      var e := ReadBody(lines, b).value;
      && b.next <= e.next <= |lines| && !InBody(lines, e.next) && lines[b.next..e.next] == PrintBody(body)
      && e.before == b.before + Side(body, Add) && e.after == b.after + Side(body, Remove)
      && e.raw == b.raw + RawBody(body)
      && OpenOnlyLast(e.before) && OpenOnlyLast(e.after)
    decreases |lines| - b.next
  {
    hide ReadLine, LineValue, OpenOnlyLast, PrintLine, CanAppend;
    if !InBody(lines, b.next) {
      body := [];
      assert b.before + [] == b.before && b.after + [] == b.after && b.raw + [] == b.raw;
    } else {
      var l := LineWasPrinted(lines, b);
      var next := Extend(b, l);
      AppendKeeps(b.before, l, Add);
      AppendKeeps(b.after, l, Remove);
      var rest := BodyWasPrinted(lines, next);
      body := [l] + rest;
      SideAdds(b.before, l, Add, rest);
      SideAdds(b.after, l, Remove, rest);
      assert body[1..] == rest;
      SeqAssociative(b.raw, [[KindChar(l.kind)] + l.text], RawBody(rest));
      Consecutive(lines, b.next, next.next, ReadBody(lines, next).value.next);
    }
  }

  lemma Consecutive(lines: seq<string>, i: nat, j: nat, k: nat)
    requires i <= j <= k <= |lines|
    ensures lines[i..k] == lines[i..j] + lines[j..k]
  {
  }

  // ----- Records

  function After1(done: Hunks, r: Record): Hunks {
    Hunks(done.records + [HunkOf(r)], done.bodies + [RawBody(r.lines)],
          Value(r.was.start) + Count(r.was), Value(r.becomes.start) + Count(r.becomes))
  }

  lemma RecordReads(lines: seq<string>, index: nat, r: Record, tail: seq<string>, done: Hunks)
    requires From(lines, index, PrintRecord(r) + tail) && (tail == [] || "@@ " <= tail[0])
    requires GoodRecord(r) && done.previousOld <= Value(r.was.start) && done.previousNew <= Value(r.becomes.start)
    ensures index < |lines| && NextHunk(lines, index, done) == Success((After1(done, r), |lines| - |tail|))
  {
    hide HunkHeader, ReadBody, PrintBody, PrintHunkHeader, Value;
    assert lines[index] == (PrintRecord(r) + tail)[0] == PrintHunkHeader(r);
    HunkHeaderReads(r);
    assert lines[index + 1..] == lines[index..][1..] == PrintBody(r.lines) + tail;
    assert [] + Before(r) == Before(r) && [] + After(r) == After(r) && [] + RawBody(r.lines) == RawBody(r.lines);
    BodyReads(lines, Body([], [], [], index + 1), r.lines, tail);
  }

  lemma PrintedRecordsStart(records: seq<Record>)
    requires records != [] ==> GoodRecord(records[0])
    ensures var printed := PrintRecords(records); printed == [] || "@@ " <= printed[0]
  {
    if records != [] {
      HunkHeaderReads(records[0]);
      assert PrintRecords(records)[0] == PrintHunkHeader(records[0]);
    }
  }

  lemma {:induction false} RecordsRead(lines: seq<string>, index: nat, records: seq<Record>, done: Hunks)
    requires From(lines, index, PrintRecords(records)) && GoodRecords(records, done.previousOld, done.previousNew)
    ensures
      var r := ReadHunks(lines, index, done);
      && r.Success? && r.value.records == done.records + HunksOf(records)
      && r.value.bodies == done.bodies + BodiesOf(records)
    decreases records
  {
    hide GoodRecord, PrintRecord, NextHunk, HunkOf, RawBody, Value;
    if records == [] {
      assert done.records + [] == done.records && done.bodies + [] == done.bodies;
    } else {
      var r, tail := records[0], PrintRecords(records[1..]);
      if records[1..] != [] { assert GoodRecord(records[1..][0]); }
      PrintedRecordsStart(records[1..]);
      RecordReads(lines, index, r, tail, done);
      RestFrom(lines, index, PrintRecord(r), tail);
      RecordsRead(lines, |lines| - |tail|, records[1..], After1(done, r));
      SeqAssociative(done.records, [HunkOf(r)], HunksOf(records[1..]));
      SeqAssociative(done.bodies, [RawBody(r.lines)], BodiesOf(records[1..]));
    }
  }

  lemma RestFrom(lines: seq<string>, index: nat, head: seq<string>, tail: seq<string>)
    requires From(lines, index, head + tail)
    ensures From(lines, |lines| - |tail|, tail)
  {
    assert lines[|lines| - |tail|..] == lines[index..][|head|..] == tail;
  }

  lemma RecordWasPrinted(lines: seq<string>, index: nat, done: Hunks) returns (r: Record)
    requires index < |lines| && NextHunk(lines, index, done).Success?
    ensures GoodRecord(r) && done.previousOld <= Value(r.was.start) && done.previousNew <= Value(r.becomes.start)
    ensures
      var (next, end) := NextHunk(lines, index, done).value;
      && index < end <= |lines| && next == After1(done, r) && lines[index..end] == PrintRecord(r)
  {
    hide ReadBody, PrintBody, PrintHunkHeader, Value, HunkHeader, GoodRange, Count;
    var was, becomes, section := HunkHeaderWasPrinted(lines[index]);
    var body := BodyWasPrinted(lines, Body([], [], [], index + 1));
    r := Record(was, becomes, section, body);
    SameHeader(r);
    assert [] + Before(r) == Before(r) && [] + After(r) == After(r) && [] + RawBody(body) == RawBody(body);
    Consecutive(lines, index, index + 1, NextHunk(lines, index, done).value.1);
    assert lines[index..index + 1] == [lines[index]];
  }

  lemma SameHeader(r: Record)
    ensures PrintHunkHeader(Record(r.was, r.becomes, r.section, [])) == PrintHunkHeader(r)
  {
  }

  lemma {:induction false} RecordsWerePrinted(lines: seq<string>, index: nat, done: Hunks) returns (records: seq<Record>)
    requires index <= |lines| && ReadHunks(lines, index, done).Success?
    ensures From(lines, index, PrintRecords(records)) && GoodRecords(records, done.previousOld, done.previousNew)
    ensures
      var all := ReadHunks(lines, index, done).value;
      && all.records == done.records + HunksOf(records) && all.bodies == done.bodies + BodiesOf(records)
    decreases |lines| - index
  {
    hide GoodRecord, PrintRecord, NextHunk, HunkOf, RawBody, Value;
    if index == |lines| {
      records := [];
      assert done.records + [] == done.records && done.bodies + [] == done.bodies;
    } else {
      var r := RecordWasPrinted(lines, index, done);
      var end := NextHunk(lines, index, done).value.1;
      var rest := RecordsWerePrinted(lines, end, After1(done, r));
      records := [r] + rest;
      assert records[1..] == rest;
      assert lines[index..] == lines[index..end] + lines[end..];
      SeqAssociative(done.records, [HunkOf(r)], HunksOf(rest));
      SeqAssociative(done.bodies, [RawBody(r.lines)], BodiesOf(rest));
    }
  }

  // ----- The index line of git

  lemma HexadecimalIsHex(s: string)
    ensures Hexadecimal(s) <==> s != "" && AllHex(s)
  {
    forall c: char ensures IsHex(c) <==> c in "0123456789abcdef" {
      HexDigits(c);
    }
  }

  lemma HexLeads(hex: string, rest: string)
    requires Hexadecimal(hex) && (rest == "" || !IsHex(rest[0]))
    ensures Leading(hex + rest, IsHex) == |hex| > 0
    ensures (hex + rest)[..|hex|] == hex && (hex + rest)[|hex|..] == rest
  {
    HexadecimalIsHex(hex);
    LeadingIs(hex + rest, |hex|, IsHex);
  }

  lemma PrintedIndexReads(index: IndexLine)
    requires GoodIndex(index)
    ensures IsIndexLine(PrintIndex(index))
  {
    hide Leading, Hexadecimal;
    var tail := index.becomes + index.mode;
    var rest := index.was + (".." + tail);
    Drop("index ", rest);
    Drop("..", tail);
    HexLeads(index.was, ".." + tail);
    HexLeads(index.becomes, index.mode);
  }

  lemma StartsWith(start: string, s: string)
    requires start <= s
    ensures s == start + s[|start|..]
  {
  }

  lemma CutText(s: string, n: nat)
    requires n <= |s|
    ensures s == s[..n] + s[n..]
  {
  }

  predicate AllHex(s: string) {
    forall i | 0 <= i < |s| :: IsHex(s[i])
  }

  lemma LeadingIsHex(s: string)
    ensures AllHex(s[..Leading(s, IsHex)])
  {
  }

  /** The digits a text begins with. */
  lemma HexBegins(s: string)
    requires Leading(s, IsHex) > 0
    ensures var n := Leading(s, IsHex); n <= |s| && Hexadecimal(s[..n]) && s == s[..n] + s[n..]
  {
    LeadingIsHex(s);
    CutText(s, Leading(s, IsHex));
    hide Hexadecimal, AllHex, IsHex, Leading;
    HexadecimalIsHex(s[..Leading(s, IsHex)]);
  }

  lemma IndexWasPrinted(line: string) returns (index: IndexLine)
    requires IsIndexLine(line)
    ensures GoodIndex(index) && line == PrintIndex(index)
  {
    hide Leading, Hexadecimal, IsHex;
    var rest := line[6..];
    StartsWith("index ", line);
    HexBegins(rest);
    var n := Leading(rest, IsHex);
    StartsWith("..", rest[n..]);
    var tail := rest[n + 2..];
    assert tail == rest[n..][2..];
    HexBegins(tail);
    var m := Leading(tail, IsHex);
    index := IndexLine(rest[..n], tail[..m], tail[m..]);
  }

  /** The index lines the parser accepts are exactly the printed ones. */
  lemma IndexLines(line: string)
    ensures IsIndexLine(line) <==> exists index :: GoodIndex(index) && line == PrintIndex(index)
  {
    hide IsIndexLine, GoodIndex, PrintIndex;
    if IsIndexLine(line) {
      var index := IndexWasPrinted(line);
    }
    forall index | GoodIndex(index) && line == PrintIndex(index) ensures IsIndexLine(line) {
      PrintedIndexReads(index);
    }
  }

  // ----- File headers

  lemma SafePathHasNoTab(path: string)
    requires SafePath(path).Success?
    ensures '\t' !in path && '\n' !in path && path != ""
  {
  }

  lemma {:induction false} UpToStamp(name: string, stamp: string)
    requires '\t' !in name && Stamp(stamp)
    ensures UpTo(name + stamp, '\t') == name
  {
    UpToIs(name + stamp, name, '\t');
  }

  function FromName(style: Style, target: string): string {
    (if style.prefixed then "a/" else "") + target
  }

  function ToName(style: Style, target: string): string {
    (if style.prefixed then "b/" else "") + target
  }

  lemma NamesStrip(style: Style, target: string)
    requires target != ""
    ensures StripPair(FromName(style, target), ToName(style, target)) == (target, target)
  {
    if style.prefixed {
      Drop("a/", target);
      Drop("b/", target);
    } else {
      assert "" + target == target;
      if "a/" <= target { OtherStart("a/", "b/", target); }
    }
  }

  lemma PairReads(style: Style, target: string, first: string, second: string)
    requires SafePath(target).Success? && GoodStyle(style)
    requires first == "--- " + (FromName(style, target) + style.stamp)
    requires second == "+++ " + (ToName(style, target) + style.newStamp)
    ensures "--- " <= first && "+++ " <= second
    ensures StripPair(UpTo(first[4..], '\t'), UpTo(second[4..], '\t')) == (target, target)
  {
    SafePathHasNoTab(target);
    Drop("--- ", FromName(style, target) + style.stamp);
    Drop("+++ ", ToName(style, target) + style.newStamp);
    UpToStamp(FromName(style, target), style.stamp);
    UpToStamp(ToName(style, target), style.newStamp);
    NamesStrip(style, target);
  }

  lemma HeadersRead(style: Style, target: string, rest: seq<string>)
    requires SafePath(target).Success? && GoodStyle(style) && rest != []
    ensures Headers(PrintHeaders(style, target) + rest, target) == Success(|PrintHeaders(style, target)|)
  {
    hide StripPair, UpTo, SafePath, IsIndexLine, PrintIndex, GoodIndex;
    var printed := PrintHeaders(style, target);
    var lines, start := printed + rest, |printed| - 2;
    PairReads(style, target, printed[start], printed[start + 1]);
    assert lines[start] == printed[start] && lines[start + 1] == printed[start + 1];
    if style.git {
      assert lines[0] == printed[0] == "diff --git a/" + target + " b/" + target;
      GitLine(target);
      if style.index.None? { NotIndexLine(lines[1]); } else { PrintedIndexReads(style.index.value); }
    } else {
      OtherStart("--- ", "diff --git ", lines[0]);
    }
  }

  lemma GitLine(target: string)
    ensures "diff --git " <= "diff --git a/" + target + " b/" + target
  {
    var line := "diff --git a/" + target + " b/" + target;
    assert line[..13] == "diff --git a/" && line[..11] == "diff --git a/"[..11];
  }

  lemma NotIndexLine(line: string)
    requires "--- " <= line
    ensures !IsIndexLine(line)
  {
    OtherStart("--- ", "index ", line);
  }

  /** The text before a tab and the stamp after it. */
  lemma StampOf(s: string) returns (stamp: string)
    ensures Stamp(stamp) && s == UpTo(s, '\t') + stamp
  {
    UpToStops(s, '\t');
    stamp := s[|UpTo(s, '\t')|..];
  }

  lemma PairWasPrinted(first: string, second: string, target: string, git: bool, index: Option<IndexLine>) returns (style: Style)
    requires "--- " <= first && "+++ " <= second
    requires StripPair(UpTo(first[4..], '\t'), UpTo(second[4..], '\t')) == (target, target)
    ensures style.git == git && style.index == index && Stamp(style.stamp) && Stamp(style.newStamp)
    ensures first == "--- " + (FromName(style, target) + style.stamp)
    ensures second == "+++ " + (ToName(style, target) + style.newStamp)
  {
    hide UpTo;
    var stamp := StampOf(first[4..]);
    var newStamp := StampOf(second[4..]);
    var from, to := UpTo(first[4..], '\t'), UpTo(second[4..], '\t');
    var prefixed := "a/" <= from && "b/" <= to;
    style := Style(git, index, prefixed, stamp, newStamp);
    assert first == "--- " + first[4..] && second == "+++ " + second[4..];
    if prefixed {
      assert from == "a/" + from[2..] && to == "b/" + to[2..];
    } else {
      assert "" + target == target;
    }
  }

  lemma HeadersWerePrinted(lines: seq<string>, target: string) returns (style: Style)
    requires Headers(lines, target).Success?
    ensures GoodStyle(style) && lines[..Headers(lines, target).value] == PrintHeaders(style, target)
  {
    hide UpTo, SafePath, IsIndexLine, StripPair, PrintIndex, GoodIndex;
    var git := "diff --git " <= lines[0];
    var index := None;
    if git && |lines| > 1 && IsIndexLine(lines[1]) {
      var parts := IndexWasPrinted(lines[1]);
      index := Some(parts);
    }
    var start := Headers(lines, target).value - 2;
    style := PairWasPrinted(lines[start], lines[start + 1], target, git, index);
    assert lines[..start + 2] == lines[..start] + [lines[start], lines[start + 1]];
  }

  // ----- The theorems

  /** Everything printed is read back: exactly the same before and after blocks. */
  lemma PrintParses(raw: string, target: string, accepts: Oracle, n: Normalized, style: Style, records: seq<Record>)
    requires SafePath(target).Success? && Normalize(raw, MAX_PATCH_BYTES) == Success(n)
    requires PrintsAs(n.text, target, style, records)
    ensures Parsed(raw, target, accepts) ==
            if accepts(n.text, BodiesOf(records)) then Success(ParsedPatch(target, HunksOf(records)))
            else Failure(Invalid(ParserRejected))
  {
    hide SafePath, Headers, Split, ReadHunks, HunksOf, BodiesOf;
    var index := LinesParse(n.text, target, style, records);
    PrintedNotEmpty(records);
  }

  lemma LinesParse(text: string, target: string, style: Style, records: seq<Record>) returns (index: nat)
    requires SafePath(target).Success? && PrintsAs(text, target, style, records)
    ensures EndsLine(text)
    ensures var lines := Split(text[..|text| - 1], '\n'); Headers(lines, target) == Success(index) && index <= |lines|
    ensures
      var r := ReadHunks(Split(text[..|text| - 1], '\n'), index, NoHunksYet);
      r.Success? && r.value.records == HunksOf(records) && r.value.bodies == BodiesOf(records)
  {
    hide Headers, SafePath, PrintHeaders, GoodRecord, PrintRecord, GoodStyle, Split, ReadHunks, HunksOf, BodiesOf, Print;
    var lines := PrintLines(style, target, records);
    var headers, printed := PrintHeaders(style, target), PrintRecords(records);
    index := |headers|;
    PrintedNotEmpty(records);
    HeadersRead(style, target, printed);
    assert text == Terminate(lines) by { TextIsTerminated(style, target, records); }
    SplitTerminated(lines);
    assert lines[index..] == printed;
    RecordsRead(lines, index, records, NoHunksYet);
    assert [] + HunksOf(records) == HunksOf(records) && [] + BodiesOf(records) == BodiesOf(records);
  }

  lemma TextIsTerminated(style: Style, target: string, records: seq<Record>)
    ensures Print(style, target, records) == Terminate(PrintLines(style, target, records))
  {
  }

  lemma PrintedNotEmpty(records: seq<Record>)
    requires records != []
    ensures PrintRecords(records) != [] && HunksOf(records) != []
  {
  }

  /** Everything accepted was printed: the parser admits no other text. */
  lemma ParsedWasPrinted(raw: string, target: string, accepts: Oracle) returns (n: Normalized, style: Style, records: seq<Record>)
    requires Parsed(raw, target, accepts).Success?
    ensures Normalize(raw, MAX_PATCH_BYTES) == Success(n) && PrintsAs(n.text, target, style, records)
    ensures accepts(n.text, BodiesOf(records))
    ensures Parsed(raw, target, accepts) == Success(ParsedPatch(target, HunksOf(records)))
  {
    hide Headers, SafePath, PrintHeaders, GoodRecord, PrintRecord, GoodStyle, Normalize, NextHunk, HunkOf;
    n := Normalize(raw, MAX_PATCH_BYTES).value;
    var text := n.text;
    var lines := Split(text[..|text| - 1], '\n');
    SplitTerminates(text[..|text| - 1]);
    assert text == text[..|text| - 1] + "\n";
    style := HeadersWerePrinted(lines, target);
    var index := Headers(lines, target).value;
    records := RecordsWerePrinted(lines, index, NoHunksYet);
    assert [] + HunksOf(records) == HunksOf(records) && [] + BodiesOf(records) == BodiesOf(records);
    assert lines == lines[..index] + lines[index..] == PrintLines(style, target, records);
    assert records != [];
  }

  /** The accepted language: exactly the printed patches the third-party parser does not reject. */
  lemma AcceptedLanguage(raw: string, target: string, accepts: Oracle, hunks: seq<Hunk>)
    requires SafePath(target).Success?
    ensures Parsed(raw, target, accepts) == Success(ParsedPatch(target, hunks)) <==>
            exists n, style, records ::
              && Normalize(raw, MAX_PATCH_BYTES) == Success(n) && PrintsAs(n.text, target, style, records)
              && hunks == HunksOf(records) && accepts(n.text, BodiesOf(records))
  {
    hide SafePath, Normalize, PrintsAs, Parsed, HunksOf, BodiesOf;
    if Parsed(raw, target, accepts) == Success(ParsedPatch(target, hunks)) {
      var n, style, records := ParsedWasPrinted(raw, target, accepts);
    }
    forall n, style, records |
      && Normalize(raw, MAX_PATCH_BYTES) == Success(n) && PrintsAs(n.text, target, style, records)
      && hunks == HunksOf(records) && accepts(n.text, BodiesOf(records))
      ensures Parsed(raw, target, accepts) == Success(ParsedPatch(target, hunks))
    {
      PrintParses(raw, target, accepts, n, style, records);
    }
  }
}
