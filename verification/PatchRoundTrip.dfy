/**
 What a revert does after an apply, on the raw bytes an inspection reads and writes.
 */
module PatchRoundTrip {
  import opened Models
  import opened LineEndings
  import opened PatchEngine
  import opened PatchInverse

  // ----- Hunks that land on whole lines

  /** Both sides end a line, or the hunk is the last one and ends at the end of the file. */
  predicate Anchored(cut: Cut) {
    cut.At? ==>
      && ((EndsLine(cut.hunk.before) && EndsLine(cut.hunk.after)) || cut.tail == End(""))
      && Anchored(cut.tail)
  }

  /** Enough for every target: all sides end a line. */
  lemma {:induction false} TerminatedIsAnchored(cut: Cut)
    requires forall i | 0 <= i < |cut.Hunks()| :: EndsLine(cut.Hunks()[i].before) && EndsLine(cut.Hunks()[i].after)
    ensures Anchored(cut)
  {
    if cut.At? {
      assert cut.Hunks()[0] == cut.hunk;
      forall i | 0 <= i < |cut.tail.Hunks()| ensures cut.tail.Hunks()[i] == cut.Hunks()[i + 1] {
      }
      TerminatedIsAnchored(cut.tail);
    }
  }

  ghost predicate WholeIn(cut: Cut, text: string, from: nat) {
    cut.At? ==>
      && WholeLine(text, cut.hunk.before, from + |cut.gap|)
      && WholeIn(cut.tail, text, from + |cut.gap| + |cut.hunk.before|)
  }

  lemma LandsOnLines(gap: string, h: Hunk, text: string, pre: string, tail: string, out: string, preOut: string, newTail: string)
    requires text == pre + (gap + h.before + tail) && out == preOut + (gap + h.after + newTail)
    requires preOut == "" || EndsLine(preOut)
    requires preOut == "" ==> pre == ""
    requires UniqueAt(text, h.before, |pre| + |gap|)
    requires EndsLine(h.after) || newTail == ""
    ensures WholeLine(out, h.after, |preOut| + |gap|)
  {
    Middle(pre, gap, h.before, tail);
    Middle(preOut, gap, h.after, newTail);
  }

  /** Anchored hunks stand on whole lines in the output too. */
  lemma {:induction false} AnchoredLands(cut: Cut, text: string, pre: string, out: string, preOut: string)
    requires text == pre + cut.Old() && out == preOut + cut.New()
    requires cut.At? ==> preOut == "" || EndsLine(preOut)
    requires preOut == "" ==> pre == ""
    requires Anchored(cut) && cut.UniqueIn(text, |pre|)
    ensures WholeIn(cut.Swapped(), out, |preOut|)
  {
    hide UniqueAt, WholeLine;
    if cut.At? {
      var h, gap := cut.hunk, cut.gap;
      LandsOnLines(gap, h, text, pre, cut.tail.Old(), out, preOut, cut.tail.New());
      if cut.tail != End("") {
        var pre', preOut' := pre + (gap + h.before), preOut + (gap + h.after);
        SeqAssociative(pre, gap + h.before, cut.tail.Old());
        SeqAssociative(preOut, gap + h.after, cut.tail.New());
        assert preOut'[|preOut'| - 1] == h.after[|h.after| - 1];
        AnchoredLands(cut.tail, text, pre', out, preOut');
      }
    }
  }

  ghost predicate EachOnce(hunks: seq<Hunk>, text: string) {
    forall i | 0 <= i < |hunks| :: Location(text, hunks[i].before).Some?
  }

  lemma {:induction false} WholeAndOnceIsUnique(cut: Cut, text: string, from: nat)
    requires WholeIn(cut, text, from) && EachOnce(cut.Hunks(), text)
    ensures cut.UniqueIn(text, from)
  {
    if cut.At? {
      assert cut.Hunks()[0] == cut.hunk;
      var found := Location(text, cut.hunk.before).value;
      LocationIsUnique(text, cut.hunk.before, found);
      forall i | 0 <= i < |cut.tail.Hunks()| ensures cut.tail.Hunks()[i] == cut.Hunks()[i + 1] {
      }
      WholeAndOnceIsUnique(cut.tail, text, from + |cut.gap| + |cut.hunk.before|);
    }
  }

  lemma {:induction false} AlignedOccursOnce(hunks: seq<Hunk>, text: string, from: nat)
    requires from <= |text| && Align(hunks, text, from).Some?
    ensures EachOnce(hunks, text)
  {
    if hunks != [] {
      AlignedOccursOnce(hunks[1..], text, Location(text, hunks[0].before).value + |hunks[0].before|);
      forall i | 1 <= i < |hunks| ensures Location(text, hunks[i].before).Some? {
        assert Location(text, hunks[1..][i - 1].before).Some?;
      }
    }
  }

  /**
   The exact inverse. For anchored hunks the opposite direction applied to the output gives the original
   text, or nothing precisely when some `after` has more than one whole-line occurrence there.
   */
  lemma ExactInverse(hunks: seq<Hunk>, text: string)
    requires Align(hunks, text, 0).Some? && Anchored(Align(hunks, text, 0).value)
    ensures
      var out := Align(hunks, text, 0).value.New();
      Rewrite(SwapAll(hunks), out) == if EachOnce(SwapAll(hunks), out) then Some(text) else None
  {
    var cut := Align(hunks, text, 0).value;
    var out := cut.New();
    AlignCuts(hunks, text, 0);
    assert text[0..] == text && text == "" + text && out == "" + out;
    AnchoredLands(cut, text, "", out, "");
    SwappedReads(cut);
    UndoneIffUnique(hunks, text);
    if EachOnce(SwapAll(hunks), out) {
      WholeAndOnceIsUnique(cut.Swapped(), out, 0);
    } else if Align(SwapAll(hunks), out, 0).Some? {
      AlignedOccursOnce(SwapAll(hunks), out, 0);
    }
  }

  // ----- Raw text

  /** What parsing guarantees of every hunk: no carriage return and no NUL. */
  predicate Clean(hunks: seq<Hunk>) {
    forall i | 0 <= i < |hunks| :: CleanText(hunks[i].before) && CleanText(hunks[i].after)
  }

  predicate CleanText(s: string) {
    '\r' !in s && '\0' !in s
  }

  lemma {:induction false} NewIsClean(cut: Cut)
    requires Clean(cut.Hunks()) && CleanText(cut.Old())
    ensures CleanText(cut.New())
  {
    if cut.At? {
      assert cut.Hunks()[0] == cut.hunk;
      forall i | 0 <= i < |cut.tail.Hunks()| ensures cut.tail.Hunks()[i] == cut.Hunks()[i + 1] {
      }
      NewIsClean(cut.tail);
    }
  }

  /** A written output is read back as the text it was rendered from; CRLF survives only with a newline. */
  lemma OutputReadsBack(text: string, crlf: bool)
    requires CleanText(text) && ByteLen(Render(Normalized(text, crlf))) <= MAX_TARGET_BYTES
    ensures Normalize(Render(Normalized(text, crlf)), MAX_TARGET_BYTES) == Success(Normalized(text, crlf && '\n' in text))
  {
    var raw := Render(Normalized(text, crlf));
    ExpandMembers(text);
    NormalizeExact(raw, MAX_TARGET_BYTES, Normalized(text, crlf && '\n' in text));
  }

  /** The normalised text an inspection works on. */
  function TextOf(raw: string): Normalized
    requires Normalize(raw, MAX_TARGET_BYTES).Success?
  {
    Normalize(raw, MAX_TARGET_BYTES).value
  }

  /** What inspecting an applied output reports, branch by branch. */
  lemma InspectAfterApply(hunks: seq<Hunk>, raw: string)
    requires Clean(hunks) && Inspection(hunks, raw).status == Applicable
    requires Anchored(Align(hunks, TextOf(raw).text, 0).value)
    ensures
      var n, out := TextOf(raw), Rewrite(hunks, TextOf(raw).text).value;
      && Inspection(hunks, raw).forward == Some(Render(Normalized(out, n.crlf)))
      && Inspection(hunks, Render(Normalized(out, n.crlf))) ==
         Report(Rewrite(hunks, out), if EachOnce(SwapAll(hunks), out) then Some(n.text) else None, n.crlf && '\n' in out)
  {
    var n := TextOf(raw);
    var cut := Align(hunks, n.text, 0).value;
    NormalizeExact(raw, MAX_TARGET_BYTES, n);
    AlignCuts(hunks, n.text, 0);
    assert n.text[0..] == n.text;
    ExpandMembers(n.text);
    NewIsClean(cut);
    OutputReadsBack(cut.New(), n.crlf);
    ExactInverse(hunks, n.text);
  }

  /**
   Revert after apply. The output is seen as applied exactly when every `after` occurs once in it and the
   patch does not apply again; the revert then restores the raw bytes exactly, unless the target was CRLF and
   the output has no newline left to carry that.
   */
  lemma RevertAfterApply(hunks: seq<Hunk>, raw: string)
    requires Clean(hunks) && Inspection(hunks, raw).status == Applicable
    requires Anchored(Align(hunks, TextOf(raw).text, 0).value)
    ensures
      var n, out := TextOf(raw), Rewrite(hunks, TextOf(raw).text).value;
      var again := Inspection(hunks, Inspection(hunks, raw).forward.value);
      && (again.status == Applied <==> EachOnce(SwapAll(hunks), out) && Rewrite(hunks, out).None?)
      && (again.status == Applied ==> (again.reverse == Some(raw) <==> n.crlf ==> '\n' in out))
  {
    var n, out := TextOf(raw), Rewrite(hunks, TextOf(raw).text).value;
    hide Rewrite, Inspection, EachOnce, Report, Anchored, Align;
    NormalizeExact(raw, MAX_TARGET_BYTES, n);
    ExpandMembers(n.text);
    InspectAfterApply(hunks, raw);
    ReportAfterApply(n, out, Rewrite(hunks, out), EachOnce(SwapAll(hunks), out));
  }

  lemma ReportAfterApply(n: Normalized, out: string, again: Option<string>, once: bool)
    requires CleanText(n.text) && (n.crlf ==> '\n' in n.text) && ByteLen(Render(n)) <= MAX_TARGET_BYTES
    ensures
      var r := Report(again, if once then Some(n.text) else None, n.crlf && '\n' in out);
      && (r.status == Applied <==> once && again.None?)
      && (r.status == Applied ==> (r.reverse == Some(Render(n)) <==> n.crlf ==> '\n' in out))
  {
    hide ByteLen, Expand;
    RestoredBytes(n, out);
  }

  lemma RestoredBytes(n: Normalized, out: string)
    requires CleanText(n.text) && (n.crlf ==> '\n' in n.text) && ByteLen(Render(n)) <= MAX_TARGET_BYTES
    ensures
      var back := Render(Normalized(n.text, n.crlf && '\n' in out));
      && ByteLen(back) <= MAX_TARGET_BYTES
      && (back == Render(n) <==> n.crlf ==> '\n' in out)
  {
    ExpandGrows(n.text);
    if n.crlf {
      ExpandHasCrlf(n.text);
      assert '\r' in Expand(n.text);
    }
  }

  /** A second reconcile finds nothing to write when every `after` occurs once in the output. */
  lemma AppliedIsStable(hunks: seq<Hunk>, raw: string)
    requires Clean(hunks) && Inspection(hunks, raw).status == Applicable
    requires Anchored(Align(hunks, TextOf(raw).text, 0).value)
    requires EachOnce(SwapAll(hunks), Rewrite(hunks, TextOf(raw).text).value)
    ensures
      var again := Inspection(hunks, Inspection(hunks, raw).forward.value);
      && again.forward.None?
      && (again.status == Applied || again.reason == Some(AmbiguousDirection))
  {
    InspectAfterApply(hunks, raw);
    RevertAfterApply(hunks, raw);
  }

  function Mirrored(r: PatchInspection): PatchInspection {
    PatchInspection(
      if r.status == Applicable then Applied else if r.status == Applied then Applicable else r.status,
      r.reason, r.reverse, r.forward)
  }

  /** Swapping the sides of a patch swaps the two directions of every inspection, so the laws above hold of revert too. */
  lemma InspectionMirrors(hunks: seq<Hunk>, raw: string)
    ensures Inspection(SwapAll(hunks), raw) == Mirrored(Inspection(hunks, raw))
  {
    SwapAllInvolutive(hunks);
  }

  lemma {:induction false} SwapAllInvolutive(hunks: seq<Hunk>)
    ensures SwapAll(SwapAll(hunks)) == hunks
  {
    if hunks != [] {
      SwapAllInvolutive(hunks[1..]);
      assert SwapAll(hunks)[1..] == SwapAll(hunks[1..]);
    }
  }

  // ----- CRLF targets

  /** The same inspection with every output expanded. */
  function Expanded(r: PatchInspection): PatchInspection {
    PatchInspection(r.status, r.reason,
      if r.forward.Some? then Some(Expand(r.forward.value)) else None,
      if r.reverse.Some? then Some(Expand(r.reverse.value)) else None)
  }

  function OutputBytes(r: PatchInspection): nat {
    if r.forward.Some? then ByteLen(r.forward.value) else if r.reverse.Some? then ByteLen(r.reverse.value) else 0
  }

  /** Inspecting the CRLF form of an LF target expands the outcome; only the size limit can tell them apart. */
  lemma InspectionCommutesWithCrlf(hunks: seq<Hunk>, text: string)
    requires CleanText(text) && '\n' in text && ByteLen(Expand(text)) <= MAX_TARGET_BYTES
    ensures
      var plain, expanded := Inspection(hunks, text), Inspection(hunks, Expand(text));
      expanded == if OutputBytes(Expanded(plain)) > MAX_TARGET_BYTES
                  then PatchInspection(InvalidPatch, Some(SizeLimit), None, None)
                  else Expanded(plain)
  {
    hide Rewrite, Normalize, SwapAll, ByteLen, Expand;
    ExpandMembers(text);
    ExpandGrows(text);
    NormalizeExact(text, MAX_TARGET_BYTES, Normalized(text, false));
    NormalizeExact(Expand(text), MAX_TARGET_BYTES, Normalized(text, true));
    var forward, reverse := Rewrite(hunks, text), Rewrite(SwapAll(hunks), text);
    if forward.Some? { ExpandGrows(forward.value); }
    if reverse.Some? { ExpandGrows(reverse.value); }
  }

  // ----- Where the round trip fails

  lemma OnceAt(text: string, block: string, p: nat)
    requires WholeLine(text, block, p) && block != ""
    requires forall q: nat | q + |block| <= |text| && q != p :: !(text[q] == block[0] && LineStart(text, q))
    ensures Location(text, block) == Some(p)
  {
    forall q | WholeLine(text, block, q) ensures q == p {
      assert text[q] == text[q..q + |block|][0];
    }
    LocationIsUnique(text, block, p);
  }

  lemma NotOnce(text: string, block: string, p: nat, q: nat)
    requires p != q && WholeLine(text, block, p) && WholeLine(text, block, q)
    ensures Location(text, block) == None
  {
    if Location(text, block).Some? {
      LocationIsUnique(text, block, Location(text, block).value);
    }
  }

  lemma NowhereAtEnd(text: string, block: string)
    requires !EndsLine(block) && |block| <= |text| && text[|text| - |block|..] != block
    ensures Location(text, block) == None
  {
    if Location(text, block).Some? {
      LocationIsUnique(text, block, Location(text, block).value);
    }
  }

  lemma OneHunk(gap: string, h: Hunk, rest: string)
    requires Location(gap + h.before + rest, h.before) == Some(|gap|)
    ensures Rewrite([h], gap + h.before + rest) == Some(gap + h.after + rest)
  {
    var text, cut := gap + h.before + rest, At(gap, h, End(rest));
    LocationIsUnique(text, h.before, |gap|);
    assert cut.tail.Old() == cut.tail.New() == rest && cut.tail.Hunks() == [];
    assert text[0..] == text == cut.Old() && cut.Hunks() == [h];
    AlignFinds(cut, text, 0);
  }

  lemma OneHunkNowhere(h: Hunk, text: string)
    requires Location(text, h.before) == None
    ensures Rewrite([h], text) == None
  {
  }

  lemma SwapOne(h: Hunk)
    ensures SwapAll([h]) == [Swap(h)]
  {
  }

  /** An unterminated `after` placed mid-file swallows a line break, and no revert finds it again. */
  lemma UnanchoredDoesNotRevert()
    ensures
      var h, text := Hunk("a\n", "b"), "a\nc\n";
      Rewrite([h], text) == Some("bc\n") && Rewrite(SwapAll([h]), "bc\n") == None
  {
    var h, text := Hunk("a\n", "b"), "a\nc\n";
    OnceAt(text, "a\n", 0);
    assert text == "" + "a\n" + "c\n" && "bc\n" == "" + "b" + "c\n";
    OneHunk("", h, "c\n");
    NowhereAtEnd("bc\n", "b");
    SwapOne(h);
    OneHunkNowhere(Swap(h), "bc\n");
  }

  /** Applying is not idempotent for every patch: here the output is applicable again. */
  lemma AppliesAgain()
    ensures
      var h := Hunk("a\nb\n", "b\n");
      && Rewrite([h], "a\na\nb\nb\n") == Some("a\nb\nb\n")
      && Rewrite([h], "a\nb\nb\n") == Some("b\nb\n") && Rewrite(SwapAll([h]), "a\nb\nb\n") == None
  {
    var h := Hunk("a\nb\n", "b\n");
    hide Rewrite, SwapAll;
    FirstApply(h);
    SecondApply(h);
    TwiceThere();
    SwapOne(h);
    OneHunkNowhere(Swap(h), "a\nb\nb\n");
  }

  lemma TwiceThere()
    ensures Location("a\nb\nb\n", "b\n") == None
  {
    var text := "a\nb\nb\n";
    assert text[2..4] == "b\n" && text[4..6] == "b\n";
    NotOnce(text, "b\n", 2, 4);
  }

  lemma FirstApply(h: Hunk)
    requires h == Hunk("a\nb\n", "b\n")
    ensures Rewrite([h], "a\na\nb\nb\n") == Some("a\nb\nb\n")
  {
    hide Rewrite;
    var first := "a\na\nb\nb\n";
    assert first[2..6] == "a\nb\n";
    forall q | WholeLine(first, h.before, q) ensures q == 2 {
      assert first[q + 2] == first[q..q + 4][2] && first[q] == first[q..q + 4][0];
    }
    LocationIsUnique(first, h.before, 2);
    assert first == "a\n" + h.before + "b\n" && "a\nb\nb\n" == "a\n" + h.after + "b\n";
    OneHunk("a\n", h, "b\n");
  }

  lemma SecondApply(h: Hunk)
    requires h == Hunk("a\nb\n", "b\n")
    ensures Rewrite([h], "a\nb\nb\n") == Some("b\nb\n")
  {
    hide Rewrite;
    assert "a\nb\nb\n"[..4] == "a\nb\n";
    OnceAt("a\nb\nb\n", h.before, 0);
    assert "a\nb\nb\n" == "" + h.before + "b\n" && "b\nb\n" == "" + h.after + "b\n";
    OneHunk("", h, "b\n");
  }

  /** A CRLF target whose output has no newline comes back as LF text. */
  lemma CrlfIsLost()
    ensures
      var hunks, raw := [Hunk("a\n", "b")], "a\r\n";
      && Inspection(hunks, raw).forward == Some("b")
      && Inspection(hunks, "b").reverse == Some("a\n") != Some(raw)
  {
    var h := Hunk("a\n", "b");
    hide Rewrite, SwapAll;
    CrlfIsLostInText(h);
    SmallTexts();
    NormalizeExact("a\r\n", MAX_TARGET_BYTES, Normalized("a\n", true));
    NormalizeExact("b", MAX_TARGET_BYTES, Normalized("b", false));
  }

  lemma CrlfIsLostInText(h: Hunk)
    requires h == Hunk("a\n", "b")
    ensures Rewrite([h], "a\n") == Some("b") && Rewrite(SwapAll([h]), "a\n") == None
    ensures Rewrite([h], "b") == None && Rewrite(SwapAll([h]), "b") == Some("a\n")
  {
    OnceAt("a\n", "a\n", 0);
    OnceAt("b", "b", 0);
    assert "a\n" == "" + "a\n" + "" && "b" == "" + "b" + "";
    OneHunk("", h, "");
    OneHunk("", Swap(h), "");
    SwapOne(h);
    NowhereAtEnd("a\n", "b");
    OneHunkNowhere(Swap(h), "a\n");
    assert Location("b", "a\n").None?;
    OneHunkNowhere(h, "b");
  }

  lemma SmallTexts()
    ensures ByteLen("a\r\n") == 3 && ByteLen("b") == 1 && ByteLen("a\n") == 2
    ensures Expand("b") == "b" && Expand("a\n") == "a\r\n"
  {
    assert "a\r\n"[1..] == "\r\n" && "\r\n"[1..] == "\n" && "\n"[1..] == "" && "b"[1..] == "" && "a\n"[1..] == "\n";
    assert ByteLen("\n") == 1 + ByteLen("") && ByteLen("\r\n") == 1 + ByteLen("\n");
    assert Expand("b") == "b" + Expand("") && Expand("\n") == "\r\n" + Expand("") && Expand("a\n") == "a" + Expand("\n");
  }
}
