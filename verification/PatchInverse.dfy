/**
 Apply and revert undo each other.

 A successful direction cuts the text at the hunks; the cut with its hunks swapped is a cut of the
 output. Nothing is assumed about the blocks: they may be empty, unterminated, adjacent or repeated.
 */
module PatchInverse {
  import opened Models
  import opened LineEndings
  import opened PatchEngine

  lemma {:induction false} SwappedReads(cut: Cut)
    ensures cut.Swapped().Old() == cut.New() && cut.Swapped().New() == cut.Old()
    ensures cut.Swapped().Hunks() == SwapAll(cut.Hunks())
    ensures cut.Swapped().Swapped() == cut
  {
    if cut.At? {
      SwappedReads(cut.tail);
      assert cut.Hunks()[1..] == cut.tail.Hunks();
    }
  }

  /** A cut at unique places is the one alignment finds. */
  lemma {:induction false} AlignFinds(cut: Cut, text: string, from: nat)
    requires from <= |text| && cut.Old() == text[from..] && cut.UniqueIn(text, from)
    ensures Align(cut.Hunks(), text, from) == Some(cut)
  {
    hide Location, UniqueAt;
    if cut.At? {
      var start := from + |cut.gap|;
      var end := start + |cut.hunk.before|;
      LocationIsUnique(text, cut.hunk.before, start);
      CutHead(cut.gap, cut.hunk.before, cut.tail.Old(), text, from);
      AlignFinds(cut.tail, text, end);
      assert cut.Hunks()[1..] == cut.tail.Hunks();
    }
  }

  /** Where the three parts of a remainder lie in the whole text. */
  lemma CutHead(gap: string, block: string, tail: string, text: string, from: nat)
    requires from <= |text| && text[from..] == gap + block + tail
    ensures
      var start := from + |gap|;
      var end := start + |block|;
      end <= |text| && text[from..start] == gap && text[start..end] == block && text[end..] == tail
  {
    var start := from + |gap|;
    var end := start + |block|;
    assert text[from..start] == text[from..][..|gap|];
    assert text[start..end] == text[from..][|gap|..|gap| + |block|];
    assert text[end..] == text[from..][|gap| + |block|..];
  }

  lemma Cancel(a: string, x: string, y: string)
    requires a + x == a + y
    ensures x == y
  {
    assert x == (a + x)[|a|..] && y == (a + y)[|a|..];
  }

  lemma SamePrefix(a: string, x: string, b: string, y: string)
    requires a + x == b + y && |a| == |b|
    ensures a == b
  {
    assert a == (a + x)[..|a|] && b == (b + y)[..|b|];
  }

  /** The block in the middle of a text, and the character before it. */
  lemma Middle(pre: string, gap: string, block: string, tail: string)
    ensures Matches(pre + (gap + block + tail), block, |pre| + |gap|)
    ensures gap != "" ==> (pre + (gap + block + tail))[|pre| + |gap| - 1] == gap[|gap| - 1]
    ensures gap == "" && pre != "" ==> (pre + (gap + block + tail))[|pre| - 1] == pre[|pre| - 1]
    ensures |pre + (gap + block + tail)| == |pre| + |gap| + |block| + |tail|
  {
  }

  lemma EndsLineOrText(text: string, pre: string, gap: string, block: string, tail: string)
    requires text == pre + (gap + block + tail) && UniqueAt(text, block, |pre| + |gap|)
    ensures EndsLine(pre + (gap + block)) || tail == ""
  {
    Middle(pre, gap, block, tail);
    if EndsLine(block) {
      assert (pre + (gap + block))[|pre| + |gap| + |block| - 1] == block[|block| - 1];
    }
  }

  /** A newline-terminated block after both gaps of the same text: it is unique, so the gaps have one length. */
  lemma GapsOfClosed(pre: string, preOut: string, h: Hunk, gap: string, tail: string, newTail: string,
                     backGap: string, backTail: string, backNewTail: string)
    requires gap + h.before + tail == backGap + h.before + backTail
    requires gap + h.after + newTail == backGap + h.after + backNewTail
    requires pre == "" || EndsLine(pre) || gap + h.before + tail == ""
    requires UniqueAt(pre + (gap + h.before + tail), h.before, |pre| + |gap|)
    requires UniqueAt(preOut + (gap + h.after + newTail), h.after, |preOut| + |backGap|)
    requires EndsLine(h.before)
    ensures |gap| == |backGap|
  {
    Middle(pre, backGap, h.before, backTail);
    Middle(preOut, backGap, h.after, backNewTail);
    assert WholeLine(pre + (gap + h.before + tail), h.before, |pre| + |backGap|);
  }

  /** A block without final newline stands at the end of the text, so the gap before it is the longer one. */
  lemma GapsOfOpen(pre: string, preOut: string, h: Hunk, gap: string, tail: string, newTail: string,
                     backGap: string, backTail: string, backNewTail: string)
    requires gap + h.before + tail == backGap + h.before + backTail
    requires gap + h.after + newTail == backGap + h.after + backNewTail
    requires pre == "" || EndsLine(pre) || gap + h.before + tail == ""
    requires UniqueAt(pre + (gap + h.before + tail), h.before, |pre| + |gap|)
    requires UniqueAt(preOut + (gap + h.after + newTail), h.after, |preOut| + |backGap|)
    requires !EndsLine(h.before)
    ensures |gap| == |backGap|
  {
    if gap != "" {
      Middle(pre, gap, h.before, tail);
      assert tail == "" && |backGap| <= |gap|;
      if EndsLine(h.after) {
        Middle(preOut, gap, h.after, newTail);
        assert WholeLine(preOut + (gap + h.after + newTail), h.after, |preOut| + |gap|);
      }
    }
  }

  /** On the way back, a block found after a gap is found where it landed. */
  lemma FirstReturn(pre: string, preOut: string, h: Hunk, gap: string, tail: string, newTail: string,
                    backGap: string, backTail: string, backNewTail: string)
    requires gap + h.before + tail == backGap + h.before + backTail
    requires gap + h.after + newTail == backGap + h.after + backNewTail
    requires pre == "" || EndsLine(pre) || gap + h.before + tail == ""
    requires UniqueAt(pre + (gap + h.before + tail), h.before, |pre| + |gap|)
    requires UniqueAt(preOut + (gap + h.after + newTail), h.after, |preOut| + |backGap|)
    ensures gap == backGap
  {
    hide UniqueAt;
    if EndsLine(h.before) {
      GapsOfClosed(pre, preOut, h, gap, tail, newTail, backGap, backTail, backNewTail);
    } else {
      GapsOfOpen(pre, preOut, h, gap, tail, newTail, backGap, backTail, backNewTail);
    }
    SeqAssociative(gap, h.before, tail);
    SeqAssociative(backGap, h.before, backTail);
    SamePrefix(gap, h.before + tail, backGap, h.before + backTail);
  }

  /** Hunk by hunk, one cut has the hunks of the other swapped. */
  predicate Mirrors(cut: Cut, back: Cut) {
    if cut.End? || back.End? then cut.End? && back.End?
    else back.hunk == Swap(cut.hunk) && Mirrors(cut.tail, back.tail)
  }

  lemma {:induction false} SwappedHunksMirror(cut: Cut, back: Cut)
    requires back.Hunks() == SwapAll(cut.Hunks())
    ensures Mirrors(cut, back)
  {
    if cut.At? {
      assert back.At?;
      assert back.Hunks()[0] == SwapAll(cut.Hunks())[0] && cut.Hunks()[1..] == cut.tail.Hunks();
      assert back.Hunks()[1..] == back.tail.Hunks() && SwapAll(cut.Hunks())[1..] == SwapAll(cut.tail.Hunks());
      SwappedHunksMirror(cut.tail, back.tail);
    }
  }

  /** Two cuts, one of a text and one of its output, that read each other back after equal beginnings. */
  ghost predicate Facing(cut: Cut, back: Cut, text: string, pre: string, out: string, preOut: string) {
    && text == pre + cut.Old() && cut.Old() == back.New()
    && out == preOut + cut.New() && cut.New() == back.Old()
    && (pre == "" || EndsLine(pre) || cut.Old() == "")
  }

  lemma FacingTail(cut: Cut, back: Cut, text: string, pre: string, out: string, preOut: string)
    returns (pre': string, preOut': string)
    requires cut.At? && back.At? && back.hunk == Swap(cut.hunk)
    requires Facing(cut, back, text, pre, out, preOut)
    requires UniqueAt(text, cut.hunk.before, |pre| + |cut.gap|)
    requires UniqueAt(out, cut.hunk.after, |preOut| + |back.gap|)
    ensures back.gap == cut.gap
    ensures |pre'| == |pre| + |cut.gap| + |cut.hunk.before|
    ensures |preOut'| == |preOut| + |cut.gap| + |cut.hunk.after|
    ensures Facing(cut.tail, back.tail, text, pre', out, preOut')
  {
    var h, gap := cut.hunk, cut.gap;
    hide UniqueAt;
    var was, now := cut.tail.Old(), cut.tail.New();
    FirstReturn(pre, preOut, h, gap, was, now, back.gap, back.tail.New(), back.tail.Old());
    Cancel(gap + h.before, was, back.tail.New());
    Cancel(gap + h.after, now, back.tail.Old());
    pre', preOut' := pre + (gap + h.before), preOut + (gap + h.after);
    SeqAssociative(pre, gap + h.before, was);
    SeqAssociative(preOut, gap + h.after, now);
    EndsLineOrText(text, pre, gap, h.before, was);
  }

  lemma FacingEnd(cut: Cut, back: Cut, text: string, pre: string, out: string, preOut: string)
    requires cut.End? && back.End? && Facing(cut, back, text, pre, out, preOut)
    ensures back == cut
  {
  }

  /** A cut of the output that reads back as the original text is the swapped cut. */
  lemma {:induction false} ReturnIsSwapped(cut: Cut, back: Cut, text: string, pre: string, out: string, preOut: string)
    requires Facing(cut, back, text, pre, out, preOut) && Mirrors(cut, back)
    requires cut.UniqueIn(text, |pre|) && back.UniqueIn(out, |preOut|)
    ensures back == cut.Swapped()
  {
    hide Facing, UniqueAt;
    if cut.At? {
      var pre', preOut' := FacingTail(cut, back, text, pre, out, preOut);
      ReturnIsSwapped(cut.tail, back.tail, text, pre', out, preOut');
    } else {
      FacingEnd(cut, back, text, pre, out, preOut);
    }
  }

  /**
   Exactly when a direction can be undone: the opposite direction gives the original text back if and only
   if every `after` is, in the output, the only whole-line occurrence of itself and stands where it landed.
   */
  lemma UndoneIffUnique(hunks: seq<Hunk>, text: string)
    requires Align(hunks, text, 0).Some?
    ensures
      var cut := Align(hunks, text, 0).value;
      Rewrite(SwapAll(hunks), cut.New()) == Some(text) <==> cut.Swapped().UniqueIn(cut.New(), 0)
  {
    var cut := Align(hunks, text, 0).value;
    var out := cut.New();
    AlignCuts(hunks, text, 0);
    SwappedReads(cut);
    assert out[0..] == out && text[0..] == text;
    if cut.Swapped().UniqueIn(out, 0) {
      AlignFinds(cut.Swapped(), out, 0);
    }
    if Rewrite(SwapAll(hunks), out) == Some(text) {
      var back := Align(SwapAll(hunks), out, 0).value;
      AlignCuts(SwapAll(hunks), out, 0);
      SwappedHunksMirror(cut, back);
      assert Facing(cut, back, text, "", out, "");
      ReturnIsSwapped(cut, back, text, "", out, "");
    }
  }
}
