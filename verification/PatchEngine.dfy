/**
 The exact applier: unique whole-line matching, one rewriting pass per direction, and inspection.

 Each loop of the engine is a method; the functions beside it say what it computes.
 */
module PatchEngine {
  import opened Models
  import opened LineEndings

  datatype Hunk = Hunk(before: string, after: string)

  datatype ParsedPatch = ParsedPatch(target: string, hunks: seq<Hunk>)

  // ----- Where a block occurs

  predicate EndsLine(block: string) {
    block != "" && block[|block| - 1] == '\n'
  }

  predicate LineStart(text: string, p: nat)
    requires p <= |text|
  {
    p == 0 || text[p - 1] == '\n'
  }

  predicate Matches(text: string, block: string, p: int) {
    0 <= p && p + |block| <= |text| && text[p..p + |block|] == block
  }

  /** The block occurs at p and covers only whole lines. */
  predicate WholeLine(text: string, block: string, p: int) {
    Matches(text, block, p) && LineStart(text, p) && (EndsLine(block) || p + |block| == |text|)
  }

  ghost predicate UniqueAt(text: string, block: string, p: int) {
    WholeLine(text, block, p) && forall q :: WholeLine(text, block, q) ==> q == p
  }

  /** The positions at which a block covers whole lines. */
  ghost function Spots(text: string, block: string): set<nat> {
    set p: nat | p <= |text| && WholeLine(text, block, p)
  }

  /** The one whole-line occurrence, if there is exactly one. */
  ghost function Location(text: string, block: string): (r: Option<nat>)
    ensures r.Some? ==> r.value + |block| <= |text|
  {
    if exists p :: Spots(text, block) == {p} then
      var p :| Spots(text, block) == {p};
      assert p in Spots(text, block);
      Some(p)
    else None
  }

  lemma LocationIsUnique(text: string, block: string, p: int)
    ensures 0 <= p && Location(text, block) == Some(p) <==> UniqueAt(text, block, p)
  {
    if UniqueAt(text, block, p) {
      assert Spots(text, block) == {p};
    } else if Location(text, block) == Some(p) {
      assert p in Spots(text, block);
      forall q | WholeLine(text, block, q) ensures q == p {
        assert q in Spots(text, block);
      }
    }
  }

  /** The lowest match at or after a position, or -1. */
  method Find(text: string, block: string, from: nat) returns (p: int)
    ensures p == -1 || (p >= from && Matches(text, block, p))
    ensures forall q :: from <= q && Matches(text, block, q) ==> p != -1 && p <= q
  {
    p := from;
    while p + |block| <= |text|
      invariant from <= p
      invariant forall q :: from <= q && Matches(text, block, q) ==> p <= q
    {
      if text[p..p + |block|] == block {
        return;
      }
      p := p + 1;
    }
    p := -1;
  }

  method UniqueLocation(original: string, before: string) returns (location: Option<nat>)
    ensures location == Location(original, before)
  {
    location := None;
    var position := Find(original, before, 0);
    while position >= 0
      invariant position >= -1
      invariant position >= 0 ==> Matches(original, before, position)
      invariant location.Some? ==> WholeLine(original, before, location.value)
      invariant location.Some? && position >= 0 ==> location.value < position
      invariant forall q :: WholeLine(original, before, q) && (position < 0 || q < position) ==> location == Some(q)
      decreases if position < 0 then -1 else |original| - position
    {
      var end := position + |before|;
      if LineStart(original, position) && (EndsLine(before) || end == |original|) {
        if location.Some? {
          assert WholeLine(original, before, position) && WholeLine(original, before, location.value);
          if Location(original, before).Some? {
            LocationIsUnique(original, before, Location(original, before).value);
          }
          return None;
        }
        location := Some(position);
      }
      position := Find(original, before, position + 1);
    }
    if location.Some? {
      LocationIsUnique(original, before, location.value);
    } else if Location(original, before).Some? {
      LocationIsUnique(original, before, Location(original, before).value);
    }
  }

  // ----- One direction

  function Swap(h: Hunk): Hunk {
    Hunk(h.after, h.before)
  }

  function SwapAll(hunks: seq<Hunk>): (r: seq<Hunk>)
    ensures |r| == |hunks|
  {
    if hunks == [] then [] else [Swap(hunks[0])] + SwapAll(hunks[1..])
  }

  lemma {:induction false} SwapAllAt(hunks: seq<Hunk>, i: nat)
    requires i < |hunks|
    ensures SwapAll(hunks)[i] == Swap(hunks[i])
  {
    if i > 0 {
      SwapAllAt(hunks[1..], i - 1);
    }
  }

  function Oriented(hunks: seq<Hunk>, reverse: bool): (r: seq<Hunk>)
    ensures |r| == |hunks|
  {
    if reverse then SwapAll(hunks) else hunks
  }

  /**
   A text cut along a hunk list: the gap before each hunk, the hunk, and what follows the last one.
   Reading it with every `before` gives the old text, with every `after` the new one.
   */
  datatype Cut = End(rest: string) | At(gap: string, hunk: Hunk, tail: Cut)
  {
    function Old(): string {
      if End? then rest else gap + hunk.before + tail.Old()
    }

    function New(): string {
      if End? then rest else gap + hunk.after + tail.New()
    }

    function Hunks(): seq<Hunk> {
      if End? then [] else [hunk] + tail.Hunks()
    }

    function Swapped(): Cut {
      if End? then this else At(gap, Swap(hunk), tail.Swapped())
    }

    /** Every `before` is, in the text, the only whole-line occurrence of itself, where the cut has it. */
    ghost predicate UniqueIn(text: string, from: nat) {
      At? ==>
        && UniqueAt(text, hunk.before, from + |gap|)
        && tail.UniqueIn(text, from + |gap| + |hunk.before|)
    }

    function Replacements(from: nat): seq<Replacement> {
      if End? then []
      else
        var end := from + |gap| + |hunk.before|;
        [Replacement(from + |gap|, end, hunk.after)] + tail.Replacements(end)
    }
  }

  /** The cut of the text at the unique locations of all hunks, if they exist in order without overlap. */
  ghost function Align(hunks: seq<Hunk>, text: string, from: nat): Option<Cut>
    requires from <= |text|
  {
    if hunks == [] then Some(End(text[from..]))
    else
      var start := Location(text, hunks[0].before);
      if start.None? || start.value < from then None
      else
        var tail := Align(hunks[1..], text, start.value + |hunks[0].before|);
        if tail.None? then None else Some(At(text[from..start.value], hunks[0], tail.value))
  }

  /** A cut is a cut of the text it was made from, at unique places. */
  lemma {:induction false} AlignCuts(hunks: seq<Hunk>, text: string, from: nat)
    requires from <= |text| && Align(hunks, text, from).Some?
    ensures
      var cut := Align(hunks, text, from).value;
      cut.Old() == text[from..] && cut.Hunks() == hunks && cut.UniqueIn(text, from)
  {
    if hunks != [] {
      var start := Location(text, hunks[0].before).value;
      var end := start + |hunks[0].before|;
      LocationIsUnique(text, hunks[0].before, start);
      AlignCuts(hunks[1..], text, end);
      assert text[from..] == text[from..start] + hunks[0].before + text[end..];
    }
  }

  /** What one direction of a patch makes of a text. */
  ghost function Rewrite(hunks: seq<Hunk>, text: string): Option<string> {
    var cut := Align(hunks, text, 0);
    if cut.None? then None else Some(cut.value.New())
  }

  datatype Replacement = Replacement(start: nat, end: nat, text: string)

  function Join(pieces: seq<string>): string {
    if pieces == [] then "" else pieces[0] + Join(pieces[1..])
  }

  lemma {:induction false} JoinConcat(a: seq<string>, b: seq<string>)
    ensures Join(a + b) == Join(a) + Join(b)
  {
    if a == [] {
      assert a + b == b;
    } else {
      assert (a + b)[1..] == a[1..] + b;
      JoinConcat(a[1..], b);
    }
  }

  lemma JoinPush(pieces: seq<string>, a: string, b: string)
    ensures Join(pieces + [a]) == Join(pieces) + a
    ensures Join(pieces + [a, b]) == Join(pieces) + a + b
  {
    JoinConcat(pieces, [a]);
    JoinConcat(pieces, [a, b]);
    assert [a, b][1..] == [b] && Join([b]) == b + Join([]) && Join([a]) == a + Join([]);
  }

  /** Collecting the replacements of all hunks from index i on. */
  ghost function Collect(hunks: seq<Hunk>, text: string, i: nat, from: nat, done: seq<Replacement>): Option<seq<Replacement>>
    requires i <= |hunks|
    decreases |hunks| - i
  {
    if i == |hunks| then Some(done)
    else
      var start := Location(text, hunks[i].before);
      if start.None? || start.value < from then None
      else
        var end := start.value + |hunks[i].before|;
        Collect(hunks, text, i + 1, end, done + [Replacement(start.value, end, hunks[i].after)])
  }

  lemma {:induction false} CollectFollowsAlign(hunks: seq<Hunk>, text: string, i: nat, from: nat, done: seq<Replacement>)
    requires i <= |hunks| && from <= |text|
    ensures
      var cut := Align(hunks[i..], text, from);
      Collect(hunks, text, i, from, done) == if cut.None? then None else Some(done + cut.value.Replacements(from))
    decreases |hunks| - i
  {
    hide Location;
    if i < |hunks| {
      AlignStep(hunks, text, i, from);
      var start := Location(text, hunks[i].before);
      if start.Some? && from <= start.value {
        var end := start.value + |hunks[i].before|;
        var one := [Replacement(start.value, end, hunks[i].after)];
        CollectFollowsAlign(hunks, text, i + 1, end, done + one);
        var tail := Align(hunks[i + 1..], text, end);
        if tail.Some? {
          SeqAssociative(done, one, tail.value.Replacements(end));
        }
      }
    } else {
      assert done + [] == done;
    }
  }

  lemma AlignStep(hunks: seq<Hunk>, text: string, i: nat, from: nat)
    requires i < |hunks| && from <= |text|
    ensures
      var start, next := Location(text, hunks[i].before), Align(hunks[i..], text, from);
      if start.None? || start.value < from then next.None?
      else
        var end := start.value + |hunks[i].before|;
        var tail := Align(hunks[i + 1..], text, end);
        if tail.None? then next.None?
        else
          && next.Some?
          && next.value.Replacements(from) ==
             [Replacement(start.value, end, hunks[i].after)] + tail.value.Replacements(end)
  {
    hide Location;
    assert hunks[i..][1..] == hunks[i + 1..];
  }

  lemma SeqAssociative<T>(a: seq<T>, b: seq<T>, c: seq<T>)
    ensures a + (b + c) == (a + b) + c
  {
  }

  /** Collecting everything yields the replacements of the cut, and fails when there is none. */
  lemma CollectAll(hunks: seq<Hunk>, text: string)
    ensures
      var all, cut := Collect(hunks, text, 0, 0, []), Align(hunks, text, 0);
      if cut.None? then all.None?
      else all == Some(cut.value.Replacements(0)) && cut.value.Old() == text
  {
    CollectFollowsAlign(hunks, text, 0, 0, []);
    assert hunks[0..] == hunks && text[0..] == text;
    if Align(hunks, text, 0).Some? {
      AlignCuts(hunks, text, 0);
      assert [] + Align(hunks, text, 0).value.Replacements(0) == Align(hunks, text, 0).value.Replacements(0);
    }
  }

  method CollectReplacements(hunks: seq<Hunk>, original: string, reverse: bool, ghost all: seq<Hunk>)
    returns (r: Option<seq<Replacement>>)
    requires |all| == |hunks| && forall i | 0 <= i < |hunks| :: all[i] == if reverse then Swap(hunks[i]) else hunks[i]
    ensures r == Collect(all, original, 0, 0, [])
  {
    hide Location;
    var replacements: seq<Replacement> := [];
    var previousEnd: nat := 0;
    var i := 0;
    while i < |hunks|
      invariant 0 <= i <= |hunks|
      invariant Collect(all, original, 0, 0, []) == Collect(all, original, i, previousEnd, replacements)
    {
      var hunk := if reverse then Swap(hunks[i]) else hunks[i];
      var start := UniqueLocation(original, hunk.before);
      if start.None? || start.value < previousEnd {
        return None;
      }
      previousEnd := start.value + |hunk.before|;
      replacements := replacements + [Replacement(start.value, previousEnd, hunk.after)];
      i := i + 1;
    }
    r := Some(replacements);
  }

  /** One pass over the hunks collects the replacements, a second one assembles the output. */
  method Direction(hunks: seq<Hunk>, original: string, reverse: bool) returns (r: Option<string>)
    ensures r == Rewrite(Oriented(hunks, reverse), original)
  {
    ghost var all := Oriented(hunks, reverse);
    forall i | 0 <= i < |hunks| ensures all[i] == if reverse then Swap(hunks[i]) else hunks[i] {
      SwapAllAt(hunks, i);
    }
    CollectAll(all, original);
    var replacements := CollectReplacements(hunks, original, reverse, all);
    if replacements.None? {
      return None;
    }
    var out := Assemble(Align(all, original, 0).value, original, replacements.value);
    r := Some(out);
  }

  /** The text from a cursor on with the replacements made. */
  ghost function Replaced(text: string, replacements: seq<Replacement>, cursor: nat): (r: Option<string>)
    ensures r.Some? ==> cursor <= |text|
  {
    if cursor > |text| then None
    else if replacements == [] then Some(text[cursor..])
    else
      var next := replacements[0];
      if !(cursor <= next.start <= next.end) then None
      else
        var tail := Replaced(text, replacements[1..], next.end);
        if tail.None? then None else Some(text[cursor..next.start] + next.text + tail.value)
  }

  lemma {:induction false} ReplacementsMakeNew(cut: Cut, text: string, cursor: nat)
    requires cursor <= |text| && text[cursor..] == cut.Old()
    ensures Replaced(text, cut.Replacements(cursor), cursor) == Some(cut.New())
  {
    if cut.At? {
      var start := cursor + |cut.gap|;
      var end := start + |cut.hunk.before|;
      assert text[cursor..] == cut.gap + cut.hunk.before + cut.tail.Old();
      assert text[end..] == text[cursor..][end - cursor..] == cut.tail.Old();
      assert text[cursor..start] == text[cursor..][..|cut.gap|] == cut.gap;
      ReplacementsMakeNew(cut.tail, text, end);
      assert cut.Replacements(cursor)[1..] == cut.tail.Replacements(end);
    }
  }

  /** The assembled pieces and the replacements still to make give the output. */
  ghost predicate Assembled(out: string, text: string, pieces: seq<string>, replacements: seq<Replacement>, cursor: nat) {
    var rest := Replaced(text, replacements, cursor);
    rest.Some? && out == Join(pieces) + rest.value
  }

  lemma AssembleOne(out: string, text: string, pieces: seq<string>, replacements: seq<Replacement>, i: nat, cursor: nat)
    requires i < |replacements| && Assembled(out, text, pieces, replacements[i..], cursor)
    ensures
      var next := replacements[i];
      && cursor <= next.start <= next.end <= |text|
      && Assembled(out, text, pieces + [text[cursor..next.start], next.text], replacements[i + 1..], next.end)
  {
    assert replacements[i..][1..] == replacements[i + 1..];
    var next := replacements[i];
    assert Replaced(text, replacements[i + 1..], next.end).Some?;
    var gap, rest := text[cursor..next.start], Replaced(text, replacements[i + 1..], next.end).value;
    JoinPush(pieces, gap, next.text);
    assert Join(pieces) + (gap + next.text + rest) == Join(pieces) + gap + next.text + rest;
  }

  method Assemble(ghost cut: Cut, original: string, replacements: seq<Replacement>) returns (out: string)
    requires original == cut.Old() && replacements == cut.Replacements(0)
    ensures out == cut.New()
  {
    var pieces: seq<string> := [];
    var cursor: nat := 0;
    var i := 0;
    assert original[0..] == original && replacements[0..] == replacements;
    ReplacementsMakeNew(cut, original, 0);
    while i < |replacements|
      invariant 0 <= i <= |replacements| && cursor <= |original|
      invariant Assembled(cut.New(), original, pieces, replacements[i..], cursor)
    {
      AssembleOne(cut.New(), original, pieces, replacements, i, cursor);
      var next := replacements[i];
      pieces := pieces + [original[cursor..next.start], next.text];
      cursor := next.end;
      i := i + 1;
    }
    JoinPush(pieces, original[cursor..], "");
    out := Join(pieces + [original[cursor..]]);
  }

  // ----- Inspection

  function Report(forward: Option<string>, reverse: Option<string>, crlf: bool): PatchInspection {
    if forward.Some? && reverse.Some? then
      PatchInspection(InvalidPatch, Some(AmbiguousDirection), None, None)
    else if forward.None? && reverse.None? then
      PatchInspection(Conflict, Some(ContextNotUnique), None, None)
    else
      var text := if forward.Some? then forward.value else reverse.value;
      var output := Render(Normalized(text, crlf));
      if ByteLen(output) > MAX_TARGET_BYTES then PatchInspection(InvalidPatch, Some(SizeLimit), None, None)
      else if forward.Some? then PatchInspection(Applicable, None, Some(output), None)
      else PatchInspection(Applied, None, None, Some(output))
  }

  /** The meaning of an inspection: both directions against the same normalised text. */
  ghost function Inspection(hunks: seq<Hunk>, raw: string): PatchInspection {
    match Normalize(raw, MAX_TARGET_BYTES)
    case Failure(error) => PatchInspection(error.status, Some(error.reason), None, None)
    case Success(n) => Report(Rewrite(hunks, n.text), Rewrite(SwapAll(hunks), n.text), n.crlf)
  }

  method Inspect(patch: ParsedPatch, raw: string) returns (r: PatchInspection)
    ensures r == Inspection(patch.hunks, raw)
  {
    match Normalize(raw, MAX_TARGET_BYTES) {
      case Failure(error) => r := PatchInspection(error.status, Some(error.reason), None, None);
      case Success(n) =>
        var forward := Direction(patch.hunks, n.text, false);
        var reverse := Direction(patch.hunks, n.text, true);
        r := Report(forward, reverse, n.crlf);
    }
  }

  // ----- What an inspection says

  /** The text is cut by all hunks in order, each at the only place where it occurs as whole lines. */
  ghost predicate CutBy(cut: Cut, hunks: seq<Hunk>, text: string) {
    cut.Old() == text && cut.Hunks() == hunks && cut.UniqueIn(text, 0)
  }

  /** This is what the hunks make of the text. */
  ghost predicate Rewrites(hunks: seq<Hunk>, text: string, output: string) {
    exists cut :: CutBy(cut, hunks, text) && cut.New() == output
  }

  lemma PartsOfText(text: string, from: nat, gap: string, block: string, rest: string)
    requires from <= |text| && text[from..] == gap + block + rest
    ensures from + |gap| + |block| <= |text|
    ensures text[from..from + |gap|] == gap && text[from + |gap| + |block|..] == rest
  {
    assert text[from..][..|gap|] == gap;
    assert text[from..][|gap| + |block|..] == rest;
  }

  /** A cut at unique places is the one that is found. */
  lemma {:induction false} CutIsFound(cut: Cut, text: string, from: nat)
    requires from <= |text| && cut.Old() == text[from..] && cut.UniqueIn(text, from)
    ensures Align(cut.Hunks(), text, from) == Some(cut)
    decreases cut
  {
    hide UniqueAt, Location;
    if cut.At? {
      var start := from + |cut.gap|;
      PartsOfText(text, from, cut.gap, cut.hunk.before, cut.tail.Old());
      LocationIsUnique(text, cut.hunk.before, start);
      CutIsFound(cut.tail, text, start + |cut.hunk.before|);
      assert cut.Hunks()[1..] == cut.tail.Hunks();
    }
  }

  /** One direction gives an output exactly when there is such a cut, and then what it reads as with the other sides. */
  lemma RewritesExactly(hunks: seq<Hunk>, text: string, output: string)
    ensures Rewrite(hunks, text) == Some(output) <==> Rewrites(hunks, text, output)
  {
    assert text[0..] == text;
    if Rewrite(hunks, text).Some? {
      AlignCuts(hunks, text, 0);
      assert CutBy(Align(hunks, text, 0).value, hunks, text);
    }
    forall cut | CutBy(cut, hunks, text) ensures Align(hunks, text, 0) == Some(cut) {
      CutIsFound(cut, text, 0);
    }
  }

  /** The hunks make something of the text. */
  ghost predicate Rewritable(hunks: seq<Hunk>, text: string) {
    exists output :: Rewrites(hunks, text, output)
  }

  lemma RewritableExactly(hunks: seq<Hunk>, text: string)
    ensures Rewritable(hunks, text) <==> Rewrite(hunks, text).Some?
    ensures forall output :: Rewrites(hunks, text, output) <==> Rewrite(hunks, text) == Some(output)
  {
    hide Rewrites, Rewrite;
    forall output ensures Rewrites(hunks, text, output) <==> Rewrite(hunks, text) == Some(output) {
      RewritesExactly(hunks, text, output);
    }
    if Rewrite(hunks, text).Some? {
      assert Rewrites(hunks, text, Rewrite(hunks, text).value);
    }
  }

  /**
   The status of a readable target: a conflict exactly when the hunks rewrite it in neither direction, ambiguous exactly
   when in both; applicable or applied when in that direction alone and the result is within the limit.
   */
  lemma StatusExactly(hunks: seq<Hunk>, raw: string, n: Normalized)
    requires Normalize(raw, MAX_TARGET_BYTES) == Success(n)
    ensures
      var r := Inspection(hunks, raw);
      var forward, backward := Rewritable(hunks, n.text), Rewritable(SwapAll(hunks), n.text);
      && (r == PatchInspection(Conflict, Some(ContextNotUnique), None, None) <==> !forward && !backward)
      && (r.status == Conflict ==> r.reason == Some(ContextNotUnique))
      && (r == PatchInspection(InvalidPatch, Some(AmbiguousDirection), None, None) <==> forward && backward)
    ensures
      var r := Inspection(hunks, raw);
      && (r.status == Applicable ==> exists o :: Rewrites(hunks, n.text, o) && r.forward == Some(Render(Normalized(o, n.crlf))))
      && (r.status == Applied ==> exists o :: Rewrites(SwapAll(hunks), n.text, o) && r.reverse == Some(Render(Normalized(o, n.crlf))))
    ensures
      var r := Inspection(hunks, raw);
      forall o | ByteLen(Render(Normalized(o, n.crlf))) <= MAX_TARGET_BYTES ::
        && (Rewrites(hunks, n.text, o) && r.reason != Some(AmbiguousDirection) ==> r.status == Applicable)
        && (Rewrites(SwapAll(hunks), n.text, o) && r.reason != Some(AmbiguousDirection) ==> r.status == Applied)
  {
    hide Rewrites, Rewrite, Rewritable, Render, Normalize, ByteLen, SwapAll;
    RewritableExactly(hunks, n.text);
    RewritableExactly(SwapAll(hunks), n.text);
    var r := Inspection(hunks, raw);
    if r.status == Applicable {
      assert Rewrites(hunks, n.text, Rewrite(hunks, n.text).value);
    }
    if r.status == Applied {
      assert Rewrites(SwapAll(hunks), n.text, Rewrite(SwapAll(hunks), n.text).value);
    }
  }
}
