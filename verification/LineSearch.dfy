/**
 The byte scan of the engine is a search for a run of lines.

 A text is the concatenation of its lines, each keeping its newline. A block that ends a line occurs
 whole-line exactly where its lines occur as a contiguous run of the text's lines.
 */
module LineSearch {
  import opened Models
  import opened PatchEngine

  /** The length of the first line with its newline, or of the whole text if it has none. */
  function FirstLine(s: string): (n: nat)
    requires s != ""
    ensures 1 <= n <= |s|
    ensures '\n' !in s[..n - 1] && (s[n - 1] == '\n' || n == |s|)
  {
    if s[0] == '\n' || |s| == 1 then 1
    else
      var n := FirstLine(s[1..]);
      assert s[..n] == [s[0]] + s[1..][..n - 1];
      1 + n
  }

  function Lines(s: string): seq<string> {
    if s == "" then [] else
      var n := FirstLine(s);
      [s[..n]] + Lines(s[n..])
  }

  lemma {:induction false} FirstLineIs(s: string, n: nat)
    requires 1 <= n <= |s| && '\n' !in s[..n - 1] && (s[n - 1] == '\n' || n == |s|)
    ensures FirstLine(s) == n
  {
    if s[0] != '\n' && |s| > 1 {
      assert s[..n - 1] == [s[0]] + s[1..][..n - 2];
      FirstLineIs(s[1..], n - 1);
    }
  }

  lemma {:induction false} JoinLines(s: string)
    ensures Join(Lines(s)) == s
  {
    if s != "" {
      var n := FirstLine(s);
      JoinLines(s[n..]);
      hide FirstLine;
      assert Lines(s) == [s[..n]] + Lines(s[n..]);
      assert Lines(s)[1..] == Lines(s[n..]);
    }
  }

  lemma LinesStep(s: string, n: nat)
    requires 1 <= n <= |s| && '\n' !in s[..n - 1] && (s[n - 1] == '\n' || n == |s|)
    ensures Lines(s) == [s[..n]] + Lines(s[n..])
  {
    FirstLineIs(s, n);
  }

  lemma NoLines()
    ensures Lines("") == []
  {
  }

  /** Lines split at any line end. */
  lemma {:induction false} LinesConcat(a: string, b: string)
    requires a == "" || EndsLine(a)
    ensures Lines(a + b) == Lines(a) + Lines(b)
  {
    hide Lines;
    if a == "" {
      NoLines();
      assert a + b == b && [] + Lines(b) == Lines(b);
    } else {
      var n := FirstLine(a);
      var rest := a[n..];
      assert (a + b)[..n] == a[..n] && (a + b)[..n - 1] == a[..n - 1] && (a + b)[n..] == rest + b;
      LinesStep(a, n);
      LinesStep(a + b, n);
      if n < |a| { assert rest[|rest| - 1] == a[|a| - 1]; }
      LinesConcat(rest, b);
      SeqAssociative([a[..n]], Lines(rest), Lines(b));
    }
  }

  /** Every line but the last ends with a newline, and none is empty. */
  lemma {:induction false} LinesShape(s: string, i: nat)
    requires i < |Lines(s)|
    ensures Lines(s)[i] != ""
    ensures i < |Lines(s)| - 1 ==> EndsLine(Lines(s)[i])
  {
    var n := FirstLine(s);
    if i > 0 {
      LinesShape(s[n..], i - 1);
    } else if |Lines(s)| > 1 {
      assert s[n..] != "";
    }
  }

  /** Where line i starts. */
  function LineOffset(lines: seq<string>, i: nat): nat
    requires i <= |lines|
  {
    |Join(lines[..i])|
  }

  /** The lines of the block, at line index i of the text. */
  predicate RunAt(text: string, block: string, i: nat) {
    i + |Lines(block)| <= |Lines(text)| && Lines(text)[i..i + |Lines(block)|] == Lines(block)
  }

  lemma ThreeParts(lines: seq<string>, i: nat, k: nat)
    requires i + k <= |lines|
    ensures Join(lines) == Join(lines[..i]) + (Join(lines[i..i + k]) + Join(lines[i + k..]))
  {
    hide Join;
    var run, tail := lines[i..i + k], lines[i + k..];
    assert lines[i..] == run + tail && lines == lines[..i] + lines[i..];
    JoinConcat(run, tail);
    JoinConcat(lines[..i], lines[i..]);
  }

  lemma {:induction false} PrefixEndsLine(s: string, i: nat)
    requires i < |Lines(s)|
    ensures var p := Join(Lines(s)[..i]); p == "" || EndsLine(p)
  {
    var lines := Lines(s);
    if i > 0 {
      LinesShape(s, i - 1);
      assert lines[..i] == lines[..i - 1] + [lines[i - 1]];
      JoinPush(lines[..i - 1], lines[i - 1], "");
    }
  }

  /** A run of lines is a whole-line occurrence at the offset of its first line. */
  lemma RunIsWholeLine(text: string, block: string, i: nat)
    requires EndsLine(block) && RunAt(text, block, i)
    ensures WholeLine(text, block, LineOffset(Lines(text), i))
  {
    hide Lines, Join;
    var lines, k := Lines(text), |Lines(block)|;
    ThreeParts(lines, i, k);
    JoinLines(text);
    JoinLines(block);
    PrefixNotLast(text, block, i);
    Middle(Join(lines[..i]), block, Join(lines[i + k..]));
  }

  lemma PrefixNotLast(text: string, block: string, i: nat)
    requires block != "" && RunAt(text, block, i)
    ensures var p := Join(Lines(text)[..i]); p == "" || EndsLine(p)
  {
    assert Lines(block) != [];
    PrefixEndsLine(text, i);
  }

  lemma Middle(pre: string, block: string, tail: string)
    requires pre == "" || EndsLine(pre)
    ensures Matches(pre + (block + tail), block, |pre|) && LineStart(pre + (block + tail), |pre|)
  {
  }

  /** A whole-line occurrence is a run of lines, at the line starting there. */
  lemma WholeLineIsRun(text: string, block: string, p: nat) returns (i: nat)
    requires EndsLine(block) && WholeLine(text, block, p)
    ensures i <= |Lines(text)| && RunAt(text, block, i) && LineOffset(Lines(text), i) == p
  {
    hide Lines, Join;
    var pre, tail := text[..p], text[p + |block|..];
    i := |Lines(pre)|;
    assert text == pre + (block + tail);
    LinesConcat(block, tail);
    LinesConcat(pre, block + tail);
    RunInside(Lines(pre), Lines(block), Lines(tail));
    JoinLines(pre);
  }

  lemma RunFits(text: string, block: string, i: nat)
    requires RunAt(text, block, i)
    ensures i <= |Lines(text)|
  {
  }

  lemma RunInside(pre: seq<string>, run: seq<string>, tail: seq<string>)
    ensures var all := pre + (run + tail); all[..|pre|] == pre && all[|pre|..|pre| + |run|] == run
  {
  }

  /** Different lines start at different offsets. */
  lemma {:induction false} OffsetsIncrease(s: string, i: nat, j: nat)
    requires i < j <= |Lines(s)|
    ensures LineOffset(Lines(s), i) < LineOffset(Lines(s), j)
    decreases j
  {
    var lines := Lines(s);
    LinesShape(s, j - 1);
    assert lines[..j] == lines[..j - 1] + [lines[j - 1]];
    JoinPush(lines[..j - 1], lines[j - 1], "");
    if i < j - 1 {
      OffsetsIncrease(s, i, j - 1);
    }
  }

  /**
   The scan refines a line search: it succeeds exactly when the lines of the block occur as one run of the
   text's lines and no other, and then it returns the offset of that run.
   */
  lemma ScanIsLineSearch(text: string, block: string, i: nat)
    requires EndsLine(block) && i <= |Lines(text)|
    ensures Location(text, block) == Some(LineOffset(Lines(text), i)) <==>
            RunAt(text, block, i) && forall j: nat :: RunAt(text, block, j) ==> j == i
  {
    hide RunAt, Lines, LineOffset, Location;
    var p := LineOffset(Lines(text), i);
    LocationIsUnique(text, block, p);
    if UniqueAt(text, block, p) {
      var run := WholeLineIsRun(text, block, p);
      if run < i { OffsetsIncrease(text, run, i); }
      if i < run { OffsetsIncrease(text, i, run); }
      forall j: nat | RunAt(text, block, j) ensures j == i {
        RunFits(text, block, j);
        RunIsWholeLine(text, block, j);
        if j < i { OffsetsIncrease(text, j, i); }
        if i < j { OffsetsIncrease(text, i, j); }
      }
    }
    if RunAt(text, block, i) && forall j: nat :: RunAt(text, block, j) ==> j == i {
      RunIsWholeLine(text, block, i);
      forall q | WholeLine(text, block, q) ensures q == p {
        var j := WholeLineIsRun(text, block, q);
      }
    }
  }

  /** And it finds nothing exactly when there is no run or more than one. */
  lemma ScanFindsNothing(text: string, block: string)
    requires EndsLine(block)
    ensures Location(text, block).None? <==>
            forall i: nat :: RunAt(text, block, i) ==> exists j: nat :: j != i && RunAt(text, block, j)
  {
    hide RunAt, Lines, LineOffset, Location;
    if Location(text, block).Some? {
      var p := Location(text, block).value;
      LocationIsUnique(text, block, p);
      var i := WholeLineIsRun(text, block, p);
      ScanIsLineSearch(text, block, i);
    } else {
      forall i: nat | RunAt(text, block, i) ensures exists j: nat :: j != i && RunAt(text, block, j) {
        RunFits(text, block, i);
        ScanIsLineSearch(text, block, i);
      }
    }
  }
}
