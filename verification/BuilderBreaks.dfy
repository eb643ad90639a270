/**
 When the builder gives up: line breaks other than LF.

 Python's splitlines also breaks lines at a form feed, a vertical tab and six other characters. The diff then
 carries a piece without a newline, the next piece is glued to it, and the parser counts too few lines. With the
 whole texts in the patch, that and one text containing the other are the only obstacles.
 */
module BuilderBreaks {
  import opened Models
  import opened LineEndings
  import opened PatchEngine
  import opened PatchParser
  import Definitions
  import opened PatchPrinter
  import opened PatchBuilder
  import opened BuilderComplete
  import PatchRoundTrip

  // ----- What the diff emits, piece by piece

  datatype Piece = Piece(kind: Kind, text: string)

  function OfKind(lines: seq<string>, kind: Kind): seq<Piece> {
    if lines == [] then [] else [Piece(kind, lines[0])] + OfKind(lines[1..], kind)
  }

  function OpPieces(op: Op, a: seq<string>, b: seq<string>): seq<Piece> {
    if op.equal then OfKind(Slice(a, op.i1, op.i2), Context)
    else OfKind(Slice(a, op.i1, op.i2), Remove) + OfKind(Slice(b, op.j1, op.j2), Add)
  }

  function Pieces(ops: seq<Op>, a: seq<string>, b: seq<string>): seq<Piece> {
    if ops == [] then [] else OpPieces(ops[0], a, b) + Pieces(ops[1..], a, b)
  }

  function PieceText(ps: seq<Piece>): string {
    if ps == [] then "" else [KindChar(ps[0].kind)] + ps[0].text + PieceText(ps[1..])
  }

  lemma {:induction false} PieceTextConcat(x: seq<Piece>, y: seq<Piece>)
    ensures PieceText(x + y) == PieceText(x) + PieceText(y)
  {
    if x == [] {
      assert x + y == y;
    } else {
      assert (x + y)[1..] == x[1..] + y;
      PieceTextConcat(x[1..], y);
      SeqAssociative([KindChar(x[0].kind)] + x[0].text, PieceText(x[1..]), PieceText(y));
    }
  }

  lemma {:induction false} PrefixedIsPieces(lines: seq<string>, kind: Kind)
    ensures Prefixed(lines, KindChar(kind)) == PieceText(OfKind(lines, kind))
  {
    if lines != [] {
      PrefixedIsPieces(lines[1..], kind);
      assert OfKind(lines, kind)[1..] == OfKind(lines[1..], kind);
    }
  }

  lemma {:induction false} BodyIsPieces(ops: seq<Op>, a: seq<string>, b: seq<string>)
    ensures BodyText(ops, a, b) == PieceText(Pieces(ops, a, b))
  {
    hide Slice, Prefixed, OfKind, PieceText;
    if ops == [] {
      assert PieceText([]) == "" by { NoPieces(); }
    } else {
      var op := ops[0];
      var removed, added := Slice(a, op.i1, op.i2), Slice(b, op.j1, op.j2);
      PrefixedIsPieces(removed, Context);
      PrefixedIsPieces(removed, Remove);
      PrefixedIsPieces(added, Add);
      PieceTextConcat(OfKind(removed, Remove), OfKind(added, Add));
      BodyIsPieces(ops[1..], a, b);
      PieceTextConcat(OpPieces(op, a, b), Pieces(ops[1..], a, b));
    }
  }

  lemma NoPieces()
    ensures PieceText([]) == ""
  {
  }

  // ----- Counting pieces

  function Weight(kind: Kind, other: Kind): nat {
    if kind == other then 0 else 1
  }

  /** The pieces that belong to one side. */
  function SideCount(ps: seq<Piece>, other: Kind): nat {
    if ps == [] then 0 else Weight(ps[0].kind, other) + SideCount(ps[1..], other)
  }

  /** The pieces that do not end in LF. */
  function BrokenCount(ps: seq<Piece>): nat {
    if ps == [] then 0 else (if EndsLine(ps[0].text) then 0 else 1) + BrokenCount(ps[1..])
  }

  lemma {:induction false} CountsConcat(x: seq<Piece>, y: seq<Piece>, other: Kind)
    ensures SideCount(x + y, other) == SideCount(x, other) + SideCount(y, other)
    ensures BrokenCount(x + y) == BrokenCount(x) + BrokenCount(y)
  {
    if x == [] {
      assert x + y == y;
    } else {
      assert (x + y)[1..] == x[1..] + y;
      CountsConcat(x[1..], y, other);
    }
  }

  lemma {:induction false} KindCounts(lines: seq<string>, kind: Kind, other: Kind)
    ensures SideCount(OfKind(lines, kind), other) == if kind == other then 0 else |lines|
    ensures BrokenCount(OfKind(lines, kind)) == 0 ==> forall k | 0 <= k < |lines| :: EndsLine(lines[k])
  {
    if lines != [] {
      KindCounts(lines[1..], kind, other);
      assert OfKind(lines, kind)[1..] == OfKind(lines[1..], kind);
      assert lines == [lines[0]] + lines[1..];
    }
  }

  lemma OpCounts(op: Op, a: seq<string>, b: seq<string>, other: Kind)
    requires op.i1 <= op.i2 <= |a| && op.j1 <= op.j2 <= |b| && (op.equal ==> a[op.i1..op.i2] == b[op.j1..op.j2])
    ensures other == Add ==> SideCount(OpPieces(op, a, b), other) == op.i2 - op.i1
    ensures other == Remove ==> SideCount(OpPieces(op, a, b), other) == op.j2 - op.j1
    ensures BrokenCount(OpPieces(op, a, b)) == 0 ==>
              (forall k | op.i1 <= k < op.i2 :: EndsLine(a[k])) && (forall k | op.j1 <= k < op.j2 :: EndsLine(b[k]))
  {
    hide SideCount, BrokenCount, OfKind, EndsLine;
    var removed, added := a[op.i1..op.i2], b[op.j1..op.j2];
    KindCounts(removed, Context, other);
    KindCounts(removed, Remove, other);
    KindCounts(added, Add, other);
    CountsConcat(OfKind(removed, Remove), OfKind(added, Add), other);
    if BrokenCount(OpPieces(op, a, b)) == 0 {
      forall k | op.i1 <= k < op.i2 ensures EndsLine(a[k]) { assert a[k] == removed[k - op.i1]; }
      forall k | op.j1 <= k < op.j2 ensures EndsLine(b[k]) { assert b[k] == added[k - op.j1]; }
    }
  }

  /** Every line of both texts is emitted: as many as there are, on each side. */
  lemma {:induction false} AllEmitted(ops: seq<Op>, a: seq<string>, b: seq<string>, i: nat, j: nat)
    requires i <= |a| && j <= |b| && Covers(ops, a, b, i, j)
    ensures SideCount(Pieces(ops, a, b), Add) == |a| - i && SideCount(Pieces(ops, a, b), Remove) == |b| - j
    ensures BrokenCount(Pieces(ops, a, b)) == 0 ==>
              (forall k | i <= k < |a| :: EndsLine(a[k])) && (forall k | j <= k < |b| :: EndsLine(b[k]))
  {
    hide OpPieces, EndsLine;
    if ops != [] {
      var op := ops[0];
      OpCounts(op, a, b, Add);
      OpCounts(op, a, b, Remove);
      AllEmitted(ops[1..], a, b, op.i2, op.j2);
      CountsConcat(OpPieces(op, a, b), Pieces(ops[1..], a, b), Add);
      CountsConcat(OpPieces(op, a, b), Pieces(ops[1..], a, b), Remove);
    }
  }

  // ----- Pieces of texts

  /** A piece breaks at its last character, if it does at all, and carries nothing the format cannot hold. */
  predicate WellBroken(line: string) {
    line != "" && '\n' !in line[..|line| - 1] && PatchRoundTrip.CleanText(line)
  }

  predicate AllBroken(lines: seq<string>) {
    forall k | 0 <= k < |lines| :: WellBroken(lines[k])
  }

  /** The first piece of a text that ends in LF, and the rest of it. */
  lemma {:induction false} FirstOfText(s: string) returns (first: string, rest: string)
    requires PatchRoundTrip.CleanText(s) && s != "" && EndsLine(s)
    ensures SplitLines(s) == [first] + SplitLines(rest) && s == first + rest && first != ""
    ensures WellBroken(first) && (forall c | c in first[..|first| - 1] :: !IsBreak(c))
    ensures PatchRoundTrip.CleanText(rest) && (rest == "" || EndsLine(rest)) && (SplitLines(rest) == [] ==> EndsLine(first))
  {
    var n := Leading(s, NotBreak);
    assert n < |s|;
    first, rest := s[..n + 1], s[n + 1..];
    assert s == first + rest;
    if rest != "" { assert rest[|rest| - 1] == s[|s| - 1]; }
    FirstPiece(s, n);
  }

  lemma {:induction false} PiecesOfText(s: string)
    requires PatchRoundTrip.CleanText(s) && (s == "" || EndsLine(s))
    ensures AllBroken(SplitLines(s)) && Join(SplitLines(s)) == s && LastEnds(SplitLines(s))
    ensures s != "" ==> SplitLines(s) != []
    decreases |s|
  {
    if s == "" {
      NoLines();
    } else {
      var first, rest := FirstOfText(s);
      hide SplitLines, WellBroken, PatchRoundTrip.CleanText, AllBroken, Join, EndsLine, LastEnds;
      PiecesOfText(rest);
      NoLines();
      MorePieces(first, SplitLines(rest));
    }
  }

  predicate LastEnds(lines: seq<string>) {
    lines != [] ==> EndsLine(lines[|lines| - 1])
  }

  lemma {:induction false} MorePieces(first: string, rest: seq<string>)
    requires WellBroken(first) && AllBroken(rest) && LastEnds(rest) && (rest == [] ==> EndsLine(first))
    ensures AllBroken([first] + rest) && LastEnds([first] + rest) && Join([first] + rest) == first + Join(rest)
  {
    hide WellBroken;
    assert ([first] + rest)[1..] == rest;
  }

  lemma NoLines()
    ensures SplitLines("") == [] && Join([]) == "" && AllBroken([]) && LastEnds([])
  {
  }

  /** A text whose pieces all end in LF breaks only there. */
  lemma {:induction false} LfPiecesArePlain(s: string)
    requires PatchRoundTrip.CleanText(s) && (s == "" || EndsLine(s))
    requires forall k | 0 <= k < |SplitLines(s)| :: EndsLine(SplitLines(s)[k])
    ensures PlainText(s)
    decreases |s|
  {
    if s != "" {
      var first, rest := FirstOfText(s);
      hide SplitLines, WellBroken, PatchRoundTrip.CleanText, PlainText;
      var lines, others := SplitLines(s), SplitLines(rest);
      assert lines[0] == first;
      forall k | 0 <= k < |others| ensures EndsLine(others[k]) { assert lines[k + 1] == others[k]; }
      LfPiecesArePlain(rest);
      FirstIsPlain(first, rest);
    }
  }

  lemma FirstPiece(s: string, n: nat)
    requires PatchRoundTrip.CleanText(s) && n < |s| && forall i | 0 <= i < n :: NotBreak(s[i])
    ensures WellBroken(s[..n + 1]) && PatchRoundTrip.CleanText(s[n + 1..])
    ensures forall c | c in s[..n + 1][..n] :: !IsBreak(c)
  {
    assert s[..n + 1][..n] == s[..n];
    forall c | c in s[..n] ensures !IsBreak(c) {
      var i :| 0 <= i < n && s[i] == c;
      assert NotBreak(s[i]);
    }
  }

  lemma FirstIsPlain(first: string, rest: string)
    requires EndsLine(first) && PlainText(rest) && forall c | c in first[..|first| - 1] :: !IsBreak(c)
    ensures PlainText(first + rest)
  {
    assert first == first[..|first| - 1] + [first[|first| - 1]];
  }

  // ----- Pieces without a newline are glued to the next ones

  predicate Emitted(ps: seq<Piece>) {
    (forall k | 0 <= k < |ps| :: WellBroken(ps[k].text)) && (ps != [] ==> EndsLine(ps[|ps| - 1].text))
  }

  /** The lines the parser sees. */
  function Glue(ps: seq<Piece>): (r: seq<BodyLine>)
    requires Emitted(ps)
    ensures ps != [] ==> r != [] && r[0].kind == ps[0].kind
  {
    if ps == [] then []
    else if EndsLine(ps[0].text) then [BodyLine(ps[0].kind, Chop(ps[0].text), false)] + Glue(ps[1..])
    else
      var rest := Glue(ps[1..]);
      [BodyLine(ps[0].kind, ps[0].text + [KindChar(rest[0].kind)] + rest[0].text, false)] + rest[1..]
  }

  lemma {:induction false} GluedAreCarried(ps: seq<Piece>)
    requires Emitted(ps)
    ensures CarriedBody(Glue(ps))
  {
    if ps != [] {
      GluedAreCarried(ps[1..]);
      assert WellBroken(ps[0].text);
      var text, rest := ps[0].text, Glue(ps[1..]);
      if EndsLine(text) {
        assert Chop(text) == text[..|text| - 1];
      } else {
        assert text == text[..|text| - 1] + [text[|text| - 1]];
        assert Carried(rest[0].text);
        CarriedConcat([KindChar(rest[0].kind)], rest[0].text);
        CarriedConcat(text, [KindChar(rest[0].kind)] + rest[0].text);
        SeqAssociative(text, [KindChar(rest[0].kind)], rest[0].text);
      }
    }
  }

  lemma {:induction false} PrintOne(l: BodyLine, rest: seq<BodyLine>)
    requires !l.open
    ensures Terminate(PrintBody([l] + rest)) == [KindChar(l.kind)] + l.text + "\n" + Terminate(PrintBody(rest))
  {
    assert ([l] + rest)[1..] == rest;
    var first := [KindChar(l.kind)] + l.text;
    assert PrintBody([l] + rest) == [first] + PrintBody(rest);
    assert ([first] + PrintBody(rest))[1..] == PrintBody(rest);
  }

  /** How many lines both sides have. */
  function Both(lines: seq<BodyLine>): nat {
    |Side(lines, Add)| + |Side(lines, Remove)|
  }

  function BothWeigh(kind: Kind): nat {
    Weight(kind, Add) + Weight(kind, Remove)
  }

  lemma {:induction false} CountOne(l: BodyLine, rest: seq<BodyLine>)
    ensures Both([l] + rest) == BothWeigh(l.kind) + Both(rest)
  {
    assert ([l] + rest)[1..] == rest;
  }

  /** One glued piece: the text is what was emitted, and a line is lost. */
  lemma {:induction false} JoinedPrints(kind: Kind, text: string, rest: seq<BodyLine>, l: BodyLine)
    requires rest != [] && !rest[0].open && l == BodyLine(kind, text + ([KindChar(rest[0].kind)] + rest[0].text), false)
    ensures Terminate(PrintBody([l] + rest[1..])) == [KindChar(kind)] + text + Terminate(PrintBody(rest))
    ensures Both([l] + rest[1..]) + 1 <= BothWeigh(kind) + Both(rest)
  {
    hide Terminate, PrintBody, Both;
    var second, others := rest[0], rest[1..];
    assert rest == [second] + others;
    PrintOne(l, others);
    PrintOne(second, others);
    CountOne(l, others);
    CountOne(second, others);
    var c, d, tail := [KindChar(kind)], [KindChar(second.kind)] + second.text, Terminate(PrintBody(others));
    assert c + (text + d) + "\n" + tail == c + text + (d + "\n" + tail);
  }

  /** Glued lines print exactly what was emitted; every glued piece is lost to the count of one side at least. */
  lemma {:induction false} GluedPrints(ps: seq<Piece>)
    requires Emitted(ps)
    ensures Terminate(PrintBody(Glue(ps))) == PieceText(ps)
    ensures Both(Glue(ps)) + BrokenCount(ps) <= SideCount(ps, Add) + SideCount(ps, Remove)
  {
    if ps != [] {
      GluedPrints(ps[1..]);
      GluedAreCarried(ps[1..]);
      assert WellBroken(ps[0].text);
      var text, rest := ps[0].text, Glue(ps[1..]);
      hide Terminate, PrintBody, Both, Carried, WellBroken;
      if EndsLine(text) {
        PrintOne(BodyLine(ps[0].kind, Chop(text), false), rest);
        CountOne(BodyLine(ps[0].kind, Chop(text), false), rest);
        assert text == Chop(text) + "\n";
        SeqAssociative([KindChar(ps[0].kind)], Chop(text), "\n");
      } else {
        assert rest != [] && !rest[0].open;
        SeqAssociative(text, [KindChar(rest[0].kind)], rest[0].text);
        JoinedPrints(ps[0].kind, text, rest, Glue(ps)[0]);
      }
    }
  }

  // ----- The candidate with the whole texts

  lemma {:induction false} KindEmitted(lines: seq<string>, kind: Kind)
    requires AllBroken(lines)
    ensures |OfKind(lines, kind)| == |lines|
    ensures forall k | 0 <= k < |lines| :: OfKind(lines, kind)[k] == Piece(kind, lines[k]) && WellBroken(lines[k])
  {
    if lines != [] {
      KindEmitted(lines[1..], kind);
    }
  }

  /** The pieces of one opcode, and the last of them. */
  lemma OpEmitted(op: Op, a: seq<string>, b: seq<string>)
    requires op.i1 <= op.i2 <= |a| && op.j1 <= op.j2 <= |b| && AllBroken(a) && AllBroken(b)
    requires (op.i1 < op.i2 || op.j1 < op.j2) && (op.equal ==> a[op.i1..op.i2] == b[op.j1..op.j2])
    ensures
      var ps := OpPieces(op, a, b);
      && ps != [] && (forall k | 0 <= k < |ps| :: WellBroken(ps[k].text))
      && ps[|ps| - 1].text == if op.equal || op.j1 == op.j2 then a[op.i2 - 1] else b[op.j2 - 1]
  {
    hide WellBroken, OfKind;
    var removed, added := a[op.i1..op.i2], b[op.j1..op.j2];
    assert op.equal ==> |removed| == |added|;
    KindEmitted(removed, Context);
    KindEmitted(removed, Remove);
    KindEmitted(added, Add);
  }

  lemma {:induction false} PiecesEmitted(ops: seq<Op>, a: seq<string>, b: seq<string>, i: nat, j: nat)
    requires i <= |a| && j <= |b| && Covers(ops, a, b, i, j) && AllBroken(a) && AllBroken(b)
    requires LastEnds(a) && LastEnds(b)
    ensures Emitted(Pieces(ops, a, b)) && (ops != [] ==> Pieces(ops, a, b) != [])
  {
    hide OpPieces, EndsLine, WellBroken, AllBroken;
    if ops != [] {
      var op := ops[0];
      OpEmitted(op, a, b);
      PiecesEmitted(ops[1..], a, b, op.i2, op.j2);
      assert ops[1..] == [] ==> op.i2 == |a| && op.j2 == |b|;
    }
  }

  lemma ReadyPieces(job: Job)
    requires Ready(job)
    ensures Emitted(Pieces(job.ops, job.Before(), job.After()))
    ensures job.Before() != job.After() && job.Before() != [] && job.After() != []
    ensures (forall k | 0 <= k < |job.Before()| :: EndsLine(job.Before()[k])) ==> PlainText(job.original)
    ensures (forall k | 0 <= k < |job.After()| :: EndsLine(job.After()[k])) ==> PlainText(job.edited)
  {
    hide SplitLines, Covers, Emitted, Pieces, EndsLine, PlainText, AllBroken, PatchRoundTrip.CleanText, Join;
    EditorTextIsClean(job.original);
    EditorTextIsClean(job.edited);
    PiecesOfText(job.original);
    PiecesOfText(job.edited);
    if forall k | 0 <= k < |job.Before()| :: EndsLine(job.Before()[k]) {
      LfPiecesArePlain(job.original);
    }
    if forall k | 0 <= k < |job.After()| :: EndsLine(job.After()[k]) {
      LfPiecesArePlain(job.edited);
    }
    PiecesEmitted(job.ops, job.Before(), job.After(), 0, 0);
  }

  /** Not a good record when a piece was glued: it declares all pieces and holds fewer lines. */
  function GluedRecord(job: Job): Record
    requires Emitted(Pieces(job.ops, job.Before(), job.After()))
  {
    Record(WholeRange(|job.Before()|), WholeRange(|job.After()|), "", Glue(Pieces(job.ops, job.Before(), job.After())))
  }

  lemma GluedCandidate(job: Job, n: nat)
    requires Ready(job) && n >= job.Maximum() && Emitted(Pieces(job.ops, job.Before(), job.After()))
    ensures job.Candidate(n) == Print(PlainStyle, job.target, [GluedRecord(job)])
  {
    ReadyPieces(job);
    FewReadyLines(job);
    hide Covers, SplitLines, Groups, BodyText, HunkText, PrintHunkHeader, Pieces, Glue, Emitted, Print, Ready;
    var a, b := job.Before(), job.After();
    assert Covers(job.ops, a, b, 0, 0) by { CoversReady(job); }
    FullContextIsOneGroup(job.ops, a, b, n);
    BodyIsPieces(job.ops, a, b);
    GluedPrints(Pieces(job.ops, a, b));
    FullHunkText(job, GluedRecord(job));
    CandidateLines(job, n, GluedRecord(job));
  }

  lemma CoversReady(job: Job)
    requires Ready(job)
    ensures Covers(job.ops, job.Before(), job.After(), 0, 0)
  {
  }

  lemma {:induction false} ClosedSides(lines: seq<BodyLine>, other: Kind)
    requires CarriedBody(lines)
    ensures OpenOnlyLast(Side(lines, other)) && forall k | 0 <= k < |Side(lines, other)| :: EndsLine(Side(lines, other)[k])
  {
    if lines != [] {
      forall k | 0 <= k < |lines[1..]| ensures Carried(lines[1..][k].text) && !lines[1..][k].open {
        assert Carried(lines[k + 1].text) && !lines[k + 1].open;
      }
      ClosedSides(lines[1..], other);
      hide Carried;
      assert EndsLine(LineValue(lines[0]));
    }
  }

  /** What the parser makes of a record's lines, and what it was told to expect. */
  lemma RecordReads(lines: seq<string>, r: Record)
    requires CarriedBody(r.lines) && GoodRange(r.was) && GoodRange(r.becomes) && r.section == ""
    requires |lines| >= 3 && lines[2..] == [PrintHunkHeader(r)] + PrintBody(r.lines)
    ensures HunkHeader(lines[2]) == Success(HunkRange(Value(r.was.start), Count(r.was), Value(r.becomes.start), Count(r.becomes)))
    ensures
      var b := ReadBody(lines, Body([], [], [], 3));
      b.Success? && b.value.before == Side(r.lines, Add) && b.value.after == Side(r.lines, Remove)
  {
    ClosedSides(r.lines, Add);
    ClosedSides(r.lines, Remove);
    HunkHeaderReads(r);
    hide HunkHeader, ReadBody, PrintBody, Side, RawBody, PrintHunkHeader, GoodRange, EndsLine, OpenOnlyLast, Carried, Value, Count;
    assert lines[2] == lines[2..][0] == PrintHunkHeader(r);
    assert lines[3..] == lines[2..][1..] == PrintBody(r.lines) + [];
    assert [] + Side(r.lines, Add) == Side(r.lines, Add) && [] + Side(r.lines, Remove) == Side(r.lines, Remove);
    BodyReads(lines, Body([], [], [], 3), r.lines, []);
  }

  lemma MiscountFails(lines: seq<string>, range: HunkRange, b: Body)
    requires |lines| >= 3 && HunkHeader(lines[2]) == Success(range) && ReadBody(lines, Body([], [], [], 3)) == Success(b)
    requires |b.before| != range.oldCount || |b.after| != range.newCount
    ensures ReadHunks(lines, 2, NoHunksYet).Failure?
  {
    hide HunkHeader, ReadBody;
    assert HunkAt(lines, 3, range).Failure?;
  }

  /** The parser reads fewer lines than were declared. */
  lemma GluedIsMiscounted(lines: seq<string>, r: Record, ps: seq<Piece>)
    requires Emitted(ps) && BrokenCount(ps) > 0 && r.lines == Glue(ps) && r.section == ""
    requires GoodRange(r.was) && GoodRange(r.becomes)
    requires Count(r.was) == SideCount(ps, Add) && Count(r.becomes) == SideCount(ps, Remove)
    requires |lines| >= 3 && lines[2..] == [PrintHunkHeader(r)] + PrintBody(r.lines)
    ensures ReadHunks(lines, 2, NoHunksYet).Failure?
  {
    GluedPrints(ps);
    GluedAreCarried(ps);
    hide HunkHeader, ReadBody, PrintBody, Side, Glue, PrintHunkHeader, GoodRange, Terminate, CarriedBody, Emitted, ReadHunks, Value, Count,
         PieceText, BrokenCount, SideCount;
    assert Both(r.lines) == |Side(r.lines, Add)| + |Side(r.lines, Remove)|;
    RecordReads(lines, r);
    MiscountFails(lines, HunkRange(Value(r.was.start), Count(r.was), Value(r.becomes.start), Count(r.becomes)),
                  ReadBody(lines, Body([], [], [], 3)).value);
  }

  /** A patch whose hunks do not read is refused. */
  lemma BadHunksAreRefused(lines: seq<string>, target: string, index: nat, accepts: Oracle)
    requires SafePath(target).Success? && lines != [] && (forall i | 0 <= i < |lines| :: '\n' !in lines[i])
    requires Normalize(Terminate(lines), MAX_PATCH_BYTES) == Success(Normalized(Terminate(lines), false))
    requires Headers(lines, target) == Success(index) && ReadHunks(lines, index, NoHunksYet).Failure?
    ensures Parsed(Terminate(lines), target, accepts).Failure?
  {
    hide ReadHunks, Headers, SafePath, Normalize, Split, Terminate;
    SplitTerminated(lines);
  }

  lemma GluedLinesCarried(job: Job)
    requires Ready(job) && Emitted(Pieces(job.ops, job.Before(), job.After()))
    ensures AllCarried(PrintLines(PlainStyle, job.target, [GluedRecord(job)])) && SafePath(job.target).Success?
    ensures GoodRange(GluedRecord(job).was) && GoodRange(GluedRecord(job).becomes)
    ensures Count(GluedRecord(job).was) == |job.Before()| && Count(GluedRecord(job).becomes) == |job.After()|
    ensures PrintLines(PlainStyle, job.target, [GluedRecord(job)]) ==
            PrintHeaders(PlainStyle, job.target) + ([PrintHunkHeader(GluedRecord(job))] + PrintBody(GluedRecord(job).lines))
  {
    var r := GluedRecord(job);
    ReadyPieces(job);
    GluedAreCarried(Pieces(job.ops, job.Before(), job.After()));
    SafeTarget(job.target);
    FewReadyLines(job);
    WholeRangeText(|job.Before()|);
    WholeRangeText(|job.After()|);
    hide PrintHunkHeader, PrintBody, PrintHeaders, Carried, AllCarried, SplitLines, Covers, Glue, Pieces, Emitted, GoodRange, WholeRange,
         SafePath, EditorText, Definitions.RelativePath, PlainText, EndsLine, RangeText, PrintRange;
    PrintedBodyCarried(r.lines);
    assert Carried("") by { FixedParts(); }
    HeaderCarried(r);
    HeadersCarried(job.target);
    assert PrintRecords([r]) == [PrintHunkHeader(r)] + PrintBody(r.lines) by {
      assert [r][1..] == [] && PrintRecord(r) + [] == PrintRecord(r);
    }
    OneCarried(PrintHunkHeader(r));
    AllCarriedConcat([PrintHunkHeader(r)], PrintBody(r.lines));
    AllCarriedConcat(PrintHeaders(PlainStyle, job.target), PrintRecords([r]));
  }

  lemma SafeTarget(target: string)
    requires Definitions.RelativePath(target).Success?
    ensures SafePath(target).Success?
  {
  }

  /** A candidate with a glued piece does not parse. */
  lemma GluedIsRefused(job: Job, n: nat, accepts: Oracle)
    requires Ready(job) && n >= job.Maximum() && ByteLen(job.Candidate(n)) <= MAX_PATCH_BYTES
    requires Emitted(Pieces(job.ops, job.Before(), job.After())) && BrokenCount(Pieces(job.ops, job.Before(), job.After())) > 0
    requires SideCount(Pieces(job.ops, job.Before(), job.After()), Add) == |job.Before()|
    requires SideCount(Pieces(job.ops, job.Before(), job.After()), Remove) == |job.After()|
    ensures Parsed(job.Candidate(n), job.target, accepts).Failure?
  {
    hide Ready, Covers, Pieces, Emitted, SplitLines, Glue, EndsLine, BrokenCount, SideCount, GoodRange, WholeRange, Groups,
         Parsed, ReadHunks, Headers, Normalize, SafePath, PrintHunkHeader, PrintBody, Terminate, Carried, PrintHeaders, ByteLen, Count;
    var r := GluedRecord(job);
    GluedCandidate(job, n);
    GluedLinesCarried(job);
    var lines, rest := PrintLines(PlainStyle, job.target, [r]), [PrintHunkHeader(r)] + PrintBody(r.lines);
    TextIsTerminated(PlainStyle, job.target, [r]);
    TerminateIsClean(lines);
    NormalizeExact(job.Candidate(n), MAX_PATCH_BYTES, Normalized(job.Candidate(n), false));
    HeadersRead(PlainStyle, job.target, rest);
    PlainHeaders(job.target);
    assert lines[2..] == rest;
    GluedIsMiscounted(lines, r, Pieces(job.ops, job.Before(), job.After()));
    NoNewlines(lines);
    BadHunksAreRefused(lines, job.target, 2, accepts);
  }

  /** A text that breaks elsewhere than at LF cannot be carried whole: the candidate does not even parse. */
  lemma BrokenTextIsRefused(job: Job, n: nat, accepts: Oracle)
    requires Ready(job) && n >= job.Maximum() && ByteLen(job.Candidate(n)) <= MAX_PATCH_BYTES
    requires !(PlainText(job.original) && PlainText(job.edited))
    ensures Parsed(job.Candidate(n), job.target, accepts).Failure?
  {
    ReadyPieces(job);
    CoversReady(job);
    AllEmitted(job.ops, job.Before(), job.After(), 0, 0);
    hide Ready, Covers, Pieces, Emitted, SplitLines, PlainText, EndsLine, BrokenCount, SideCount, Parsed, ByteLen, Groups;
    GluedIsRefused(job, n, accepts);
  }

  lemma NoNewlines(lines: seq<string>)
    requires AllCarried(lines)
    ensures forall i | 0 <= i < |lines| :: '\n' !in lines[i]
  {
    forall i | 0 <= i < |lines| ensures '\n' !in lines[i] {
      assert Carried(lines[i]);
    }
  }

  // ----- When the builder gives up

  /**
   With the whole texts in the patch the candidate is exact if and only if both texts break lines only at LF, and
   neither is a unique whole-line block of the other.
   */
  lemma FullContextIff(job: Job, n: nat, accepts: Oracle)
    requires Ready(job) && n >= job.Maximum() && ByteLen(job.Candidate(n)) <= MAX_PATCH_BYTES
    requires forall text, bodies :: accepts(text, bodies)
    ensures Exact(job.Candidate(n), job.original, job.edited, job.target, accepts) <==>
            && PlainText(job.original) && PlainText(job.edited)
            && Location(job.original, job.edited).None? && Location(job.edited, job.original).None?
  {
    hide Inspection, Location, Parsed, EditorText, PlainText, Covers, ByteLen;
    if PlainText(job.original) && PlainText(job.edited) {
      PlainFullContextIff(job, n, accepts);
    } else {
      BrokenTextIsRefused(job, n, accepts);
    }
  }

  /**
   Completeness. The builder reports that context is not unique only when one text is a unique whole-line block
   of the other, or one of them breaks a line otherwise than at LF.
   */
  lemma GivesUpOnlyOnContainment(job: Job, accepts: Oracle)
    requires Ready(job) && forall text, bodies :: accepts(text, bodies)
    requires Built(job, accepts) == Failure(Invalid(EditorContextNotUnique))
    ensures Location(job.original, job.edited).Some? || Location(job.edited, job.original).Some? ||
            !PlainText(job.original) || !PlainText(job.edited)
  {
    hide Exact, Location, PlainText, ByteLen, EditorText;
    var n := GivesUpAtFullContext(job, 3, accepts);
    FullContextIff(job, n, accepts);
  }

  // ----- A form feed

  const Original := "a\U{0C}b\n"
  const Edited := "a\U{0C}c\n"

  /** The opcodes of the matcher for these texts: the first lines agree, the second ones differ. */
  const FormFeedJob := Job(Original, Edited, "s/x", [Op(true, 0, 1, 0, 1), Op(false, 1, 2, 1, 2)])

  lemma {:induction false} ByteLenBound(s: string)
    ensures ByteLen(s) <= 4 * |s|
  {
    if s != "" {
      ByteLenBound(s[1..]);
    }
  }

  lemma TargetIsAllowed()
    ensures Definitions.RelativePath("s/x") == Success("s/x") && SafePath("s/x").Success?
  {
    UpToIs("s/x", "s", '/');
    UpToIs("x", "x", '/');
    assert "s/x"[2..] == "x" && Split("s/x", '/') == ["s"] + Split("x", '/') && Split("x", '/') == ["x"];
  }

  lemma LinesOf(first: string, second: string)
    requires |first| == 2 && first[1] == '\U{0C}' && NotBreak(first[0])
    requires |second| == 2 && second[1] == '\n' && NotBreak(second[0])
    ensures SplitLines(first + second) == [first, second]
  {
    var s := first + second;
    LeadingIs(s, 1, NotBreak);
    LeadingIs(second, 1, NotBreak);
    assert s[..2] == first && s[2..] == second && second[..2] == second && second[2..] == "";
    assert SplitLines(second) == [second] + SplitLines("");
  }

  lemma JobLines()
    ensures FormFeedJob.Before() == ["a\U{0C}", "b\n"] && FormFeedJob.After() == ["a\U{0C}", "c\n"]
  {
    assert Original == "a\U{0C}" + "b\n" && Edited == "a\U{0C}" + "c\n";
    LinesOf("a\U{0C}", "b\n");
    LinesOf("a\U{0C}", "c\n");
  }

  lemma JobGroups()
    ensures Groups(FormFeedJob.ops, 3) == [FormFeedJob.ops]
  {
    var first, second, ops := FormFeedJob.ops[0], FormFeedJob.ops[1], FormFeedJob.ops;
    assert ops[1..] == [second] && [second][1..] == [] && ops == [first] + [second];
    assert KeepEnd(first, 3) == first;
    assert TrimFirst(ops, 3) == ops;
    assert TrimLast(ops, 3) == ops;
    assert [] + [first] == [first] && [first] + [second] == ops;
    assert GroupFrom(ops, 3, []) == GroupFrom([second], 3, [first]);
    assert GroupFrom([second], 3, [first]) == GroupFrom([], 3, ops);
  }

  lemma JobBody()
    ensures BodyText(FormFeedJob.ops, ["a\U{0C}", "b\n"], ["a\U{0C}", "c\n"]) == " a\U{0C}-b\n+c\n"
  {
    var ops, a, b := FormFeedJob.ops, ["a\U{0C}", "b\n"], ["a\U{0C}", "c\n"];
    assert ops[1..] == [ops[1]] && [ops[1]][1..] == [];
    assert Slice(a, 0, 1) == ["a\U{0C}"] && Slice(a, 1, 2) == ["b\n"] && Slice(b, 1, 2) == ["c\n"];
    OnePrefixed("a\U{0C}", ' ');
    OnePrefixed("b\n", '-');
    OnePrefixed("c\n", '+');
    assert BodyText([ops[1]], a, b) == "-b\n" + "+c\n" + "";
  }

  lemma OnePrefixed(line: string, c: char)
    ensures Prefixed([line], c) == [c] + line
  {
    assert [line][1..] == [] && [c] + line + "" == [c] + line;
  }

  lemma JobHunk()
    ensures HunkText(FormFeedJob.ops, FormFeedJob.Before(), FormFeedJob.After()) == "@@ -1,2 +1,2 @@\n a\U{0C}-b\n+c\n"
  {
    hide BodyText, SplitLines, RangeText;
    JobLines();
    JobBody();
    assert RangeText(0, 2) == "1,2" by { FirstTwo(); }
  }

  lemma FirstTwo()
    ensures RangeText(0, 2) == "1,2"
  {
    assert Decimal(1) == "1" && Decimal(2) == "2";
  }

  lemma JobCandidate()
    ensures FormFeedJob.Candidate(3) == "--- a/s/x\n+++ b/s/x\n" + "@@ -1,2 +1,2 @@\n a\U{0C}-b\n+c\n"
  {
    hide BodyText, Groups, HunkText, SplitLines;
    JobGroups();
    JobHunk();
    assert "--- a/" + "s/x" + "\n" + ("+++ b/" + "s/x" + "\n") == "--- a/s/x\n+++ b/s/x\n";
    OneHunkText(FormFeedJob.ops, FormFeedJob.Before(), FormFeedJob.After());
  }

  lemma OneHunkText(group: seq<Op>, a: seq<string>, b: seq<string>)
    ensures HunkTexts([group], a, b) == HunkText(group, a, b)
  {
    hide HunkText;
    assert [group][1..] == [] && HunkText(group, a, b) + "" == HunkText(group, a, b);
  }

  lemma NotBlocks()
    ensures Location(Original, Edited).None? && Location(Edited, Original).None?
  {
    NoBlock(Original, Edited);
    NoBlock(Edited, Original);
  }

  lemma NoBlock(text: string, block: string)
    requires |text| == |block| && text != block
    ensures Location(text, block).None?
  {
    if Location(text, block).Some? {
      LocationIsUnique(text, block, Location(text, block).value);
    }
  }

  lemma FormFeedIsReady()
    ensures Ready(FormFeedJob) && FormFeedJob.Maximum() == 2 && !PlainText(Original)
    ensures ByteLen(FormFeedJob.Candidate(3)) <= MAX_PATCH_BYTES
  {
    hide SplitLines, Definitions.RelativePath, Groups, HunkTexts, ByteLen;
    TargetIsAllowed();
    JobLines();
    ByteLenBound(Original);
    ByteLenBound(Edited);
    JobCandidate();
    ByteLenBound(FormFeedJob.Candidate(3));
    assert Original[1] in Original && IsBreak(Original[1]);
    assert FormFeedJob.ops[1..] == [FormFeedJob.ops[1]] && [FormFeedJob.ops[1]][1..] == [];
    assert FormFeedJob.Before()[0..1] == FormFeedJob.After()[0..1];
  }

  /** An edit that is refused, although neither text is a block of the other. */
  lemma FormFeedIsRefused(accepts: Oracle)
    ensures Built(FormFeedJob, accepts) == Failure(Invalid(EditorContextNotUnique))
    ensures Location(Original, Edited).None? && Location(Edited, Original).None?
  {
    hide Parsed, Definitions.RelativePath, SplitLines, ByteLen, Groups, HunkTexts, Location, EditorText, Covers, DiffText, PlainText;
    FormFeedIsReady();
    BrokenTextIsRefused(FormFeedJob, 3, accepts);
    NotBlocks();
  }
}
