/**
 Parsed patches meet the condition of the round-trip theorems: their hunks hold neither CR nor NUL.
 */
module ParsedPatches {
  import opened Models
  import opened LineEndings
  import opened PatchEngine
  import opened PatchParser
  import opened PatchRoundTrip

  predicate CleanLines(lines: seq<string>) {
    forall i | 0 <= i < |lines| :: CleanText(lines[i])
  }

  lemma CleanConcat(s: string, t: string)
    requires CleanText(s) && CleanText(t)
    ensures CleanText(s + t)
  {
  }

  lemma {:induction false} CleanJoin(lines: seq<string>)
    requires CleanLines(lines)
    ensures CleanText(Join(lines))
  {
    if lines != [] {
      CleanJoin(lines[1..]);
      CleanConcat(lines[0], Join(lines[1..]));
    }
  }

  lemma {:induction false} CleanSplit(s: string)
    requires CleanText(s)
    ensures CleanLines(Split(s, '\n'))
    decreases |s|
  {
    var first := UpTo(s, '\n');
    if first != s {
      var rest := s[|first| + 1..];
      CleanSplit(rest);
      assert CleanText(first);
      var lines := Split(rest, '\n');
      hide Split, CleanText;
      forall i | 0 <= i < |[first] + lines| ensures CleanText(([first] + lines)[i]) {
        if i > 0 { assert ([first] + lines)[i] == lines[i - 1]; }
      }
    }
  }

  predicate CleanBody(b: Body) {
    CleanLines(b.before) && CleanLines(b.after)
  }

  lemma CleanLine(lines: seq<string>, b: Body)
    requires CleanLines(lines) && CleanBody(b) && InBody(lines, b.next) && ReadLine(lines, b).Success?
    ensures CleanBody(ReadLine(lines, b).value)
  {
    var line := lines[b.next];
    assert CleanText(line) && CleanText(line[1..]) && CleanText("\n");
    CleanConcat(line[1..], "\n");
    hide CleanText;
  }

  lemma {:induction false} CleanBodies(lines: seq<string>, b: Body)
    requires CleanLines(lines) && CleanBody(b) && ReadBody(lines, b).Success?
    ensures CleanBody(ReadBody(lines, b).value)
    decreases |lines| - b.next
  {
    hide ReadLine, CleanText;
    if InBody(lines, b.next) {
      CleanLine(lines, b);
      CleanBodies(lines, ReadLine(lines, b).value);
    }
  }

  lemma CleanHunk(lines: seq<string>, index: nat, range: HunkRange)
    requires CleanLines(lines) && HunkAt(lines, index, range).Success?
    ensures var h := HunkAt(lines, index, range).value.hunk; CleanText(h.before) && CleanText(h.after)
  {
    hide ReadBody, CleanText;
    var b := Body([], [], [], index);
    CleanBodies(lines, b);
    CleanJoin(ReadBody(lines, b).value.before);
    CleanJoin(ReadBody(lines, b).value.after);
  }

  lemma {:induction false} CleanHunks(lines: seq<string>, index: nat, done: Hunks)
    requires CleanLines(lines) && Clean(done.records) && ReadHunks(lines, index, done).Success?
    ensures Clean(ReadHunks(lines, index, done).value.records)
    decreases |lines| - index
  {
    hide HunkAt, HunkHeader, CleanText, CleanLines;
    if index < |lines| {
      CleanHunk(lines, index + 1, HunkHeader(lines[index]).value);
      var next := NextHunk(lines, index, done).value;
      assert Clean(next.0.records);
      CleanHunks(lines, next.1, next.0);
    }
  }

  /** Whatever the parser accepts is clean. */
  lemma ParsedIsClean(raw: string, target: string, accepts: Oracle)
    requires Parsed(raw, target, accepts).Success?
    ensures Clean(Parsed(raw, target, accepts).value.hunks)
  {
    hide Headers, ReadHunks, SafePath, Split, Normalize, CleanText;
    var n := Normalize(raw, MAX_PATCH_BYTES).value;
    NormalizeExact(raw, MAX_PATCH_BYTES, n);
    var text := n.text;
    assert CleanText(text[..|text| - 1]) by { NormalIsClean(raw, n); }
    CleanSplit(text[..|text| - 1]);
    var lines := Split(text[..|text| - 1], '\n');
    CleanHunks(lines, Headers(lines, target).value, NoHunksYet);
  }

  lemma NormalIsClean(raw: string, n: Normalized)
    requires Normalize(raw, MAX_PATCH_BYTES) == Success(n) && n.text != ""
    ensures CleanText(n.text[..|n.text| - 1])
  {
    NormalizeExact(raw, MAX_PATCH_BYTES, n);
    ExpandMembers(n.text);
  }

  /** For a patch file the parser accepts: the revert of its output, exactly. */
  lemma PatchFileReverts(file: string, target: string, accepts: Oracle, raw: string)
    requires Parsed(file, target, accepts).Success?
    requires var hunks := Parsed(file, target, accepts).value.hunks;
      Inspection(hunks, raw).status == Applicable && Anchored(Align(hunks, TextOf(raw).text, 0).value)
    ensures
      var hunks := Parsed(file, target, accepts).value.hunks;
      var n, out := TextOf(raw), Rewrite(hunks, TextOf(raw).text).value;
      var again := Inspection(hunks, Inspection(hunks, raw).forward.value);
      && (again.status == Applied <==> EachOnce(SwapAll(hunks), out) && Rewrite(hunks, out).None?)
      && (again.status == Applied ==> (again.reverse == Some(raw) <==> n.crlf ==> '\n' in out))
  {
    hide Parsed, Inspection, Rewrite, Anchored, EachOnce, Clean;
    ParsedIsClean(file, target, accepts);
    RevertAfterApply(Parsed(file, target, accepts).value.hunks, raw);
  }
}
