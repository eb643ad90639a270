/**
 Decoded text, its size in bytes and its line endings.

 A text is a sequence of Unicode scalar values; ByteLen is the length of its UTF-8 encoding, which is
 what every size limit counts.
 */
module LineEndings {
  import opened Models

  function CharBytes(c: char): (n: nat)
    ensures 1 <= n <= 4
  {
    if c as int < 0x80 then 1 else if c as int < 0x800 then 2 else if c as int < 0x1_0000 then 3 else 4
  }

  function ByteLen(s: string): nat {
    if s == "" then 0 else CharBytes(s[0]) + ByteLen(s[1..])
  }

  /** Every LF becomes CRLF. */
  function Expand(s: string): string {
    if s == "" then "" else (if s[0] == '\n' then "\r\n" else [s[0]]) + Expand(s[1..])
  }

  /** Left to right, every CRLF becomes the given replacement. */
  function ReplaceCrlf(s: string, replacement: string): string {
    if |s| >= 2 && s[0] == '\r' && s[1] == '\n' then replacement + ReplaceCrlf(s[2..], replacement)
    else if s == "" then ""
    else [s[0]] + ReplaceCrlf(s[1..], replacement)
  }

  predicate HasCrlf(s: string) {
    exists i | 0 <= i < |s| - 1 :: s[i] == '\r' && s[i + 1] == '\n'
  }

  datatype Normalized = Normalized(text: string, crlf: bool)

  /** Accept uniformly ended text and hand out its LF form. */
  function Normalize(raw: string, limit: nat): Result<Normalized> {
    if ByteLen(raw) > limit then Failure(Invalid(SizeLimit))
    else if '\0' in raw then Failure(Invalid(UnsupportedEncoding))
    else
      var crlf := HasCrlf(raw);
      var rest := ReplaceCrlf(raw, "");
      if '\r' in rest || (crlf && '\n' in rest) then Failure(Invalid(MixedEndings))
      else Success(Normalized(ReplaceCrlf(raw, "\n"), crlf))
  }

  /** Write a text back with the endings of the raw text it came from. */
  function Render(n: Normalized): string {
    if n.crlf then Expand(n.text) else n.text
  }

  // ----- Properties

  lemma {:induction false} ByteLenConcat(s: string, t: string)
    ensures ByteLen(s + t) == ByteLen(s) + ByteLen(t)
  {
    if s == "" {
      assert s + t == t;
    } else {
      assert (s + t)[1..] == s[1..] + t;
      ByteLenConcat(s[1..], t);
    }
  }

  lemma {:induction false} ExpandConcat(s: string, t: string)
    ensures Expand(s + t) == Expand(s) + Expand(t)
  {
    if s == "" {
      assert s + t == t;
    } else {
      assert (s + t)[1..] == s[1..] + t;
      ExpandConcat(s[1..], t);
    }
  }

  lemma {:induction false} ExpandGrows(s: string)
    ensures ByteLen(s) <= ByteLen(Expand(s))
  {
    if s != "" {
      ExpandGrows(s[1..]);
      ByteLenConcat(if s[0] == '\n' then "\r\n" else [s[0]], Expand(s[1..]));
      assert ByteLen("\r\n") == CharBytes('\r') + ByteLen("\r\n"[1..]);
    }
  }

  lemma {:induction false} ExpandMembers(s: string)
    ensures '\0' in Expand(s) <==> '\0' in s
    ensures '\n' in Expand(s) <==> '\n' in s
    ensures '\n' !in s ==> Expand(s) == s
  {
    if s != "" {
      ExpandMembers(s[1..]);
      assert s == [s[0]] + s[1..];
    }
  }

  lemma {:induction false} ExpandHasCrlf(s: string)
    requires '\r' !in s
    ensures HasCrlf(Expand(s)) <==> '\n' in s
  {
    if s != "" {
      var e, tail := Expand(s), Expand(s[1..]);
      ExpandHasCrlf(s[1..]);
      ExpandMembers(s);
      if s[0] == '\n' {
        assert e[0] == '\r' && e[1] == '\n';
      } else {
        assert e == [s[0]] + tail;
        if HasCrlf(tail) {
          var i :| 0 <= i < |tail| - 1 && tail[i] == '\r' && tail[i + 1] == '\n';
          assert e[i + 1] == '\r' && e[i + 2] == '\n';
        }
      }
    }
  }

  /** Collapsing an expanded text gives the text back, whatever CRLF is replaced with. */
  lemma {:induction false} CollapseExpand(s: string)
    requires '\r' !in s
    ensures ReplaceCrlf(Expand(s), "\n") == s
    ensures '\r' !in ReplaceCrlf(Expand(s), "") && '\n' !in ReplaceCrlf(Expand(s), "")
  {
    if s != "" {
      CollapseExpand(s[1..]);
      var e := Expand(s);
      if s[0] == '\n' {
        assert e[2..] == Expand(s[1..]);
      } else {
        assert e[1..] == Expand(s[1..]);
      }
    }
  }

  lemma {:induction false} CollapsePlain(s: string, replacement: string)
    requires '\r' !in s
    ensures ReplaceCrlf(s, replacement) == s
  {
    if s != "" {
      CollapsePlain(s[1..], replacement);
    }
  }

  /** With no lone CR or LF left over, the text is exactly the expansion of its collapse. */
  lemma {:induction false} ExpandCollapse(s: string)
    requires '\r' !in ReplaceCrlf(s, "") && '\n' !in ReplaceCrlf(s, "")
    ensures Expand(ReplaceCrlf(s, "\n")) == s
    ensures '\r' !in ReplaceCrlf(s, "\n")
  {
    if |s| >= 2 && s[0] == '\r' && s[1] == '\n' {
      ExpandCollapse(s[2..]);
      var c := ReplaceCrlf(s, "\n");
      assert c[1..] == ReplaceCrlf(s[2..], "\n");
      assert Expand(c) == "\r\n" + s[2..];
    } else if s != "" {
      assert s[0] in ReplaceCrlf(s, "");
      assert forall c :: c in ReplaceCrlf(s[1..], "") ==> c in ReplaceCrlf(s, "");
      ExpandCollapse(s[1..]);
      var c := ReplaceCrlf(s, "\n");
      assert c[1..] == ReplaceCrlf(s[1..], "\n");
      assert Expand(c) == [s[0]] + s[1..];
    }
  }

  lemma {:induction false} NoCrlfNoCollapse(s: string)
    requires !HasCrlf(s)
    ensures ReplaceCrlf(s, "") == s && ReplaceCrlf(s, "\n") == s
  {
    if s != "" {
      NoCrlfNoCollapse(s[1..]);
    }
  }

  lemma {:induction false} HasCrlfCollapsesToLf(s: string)
    requires HasCrlf(s)
    ensures '\n' in ReplaceCrlf(s, "\n")
  {
    if !(s[0] == '\r' && s[1] == '\n') {
      var i :| 0 <= i < |s| - 1 && s[i] == '\r' && s[i + 1] == '\n';
      assert s[1..][i - 1] == '\r' && s[1..][i] == '\n';
      HasCrlfCollapsesToLf(s[1..]);
    }
  }

  /** What is accepted and what comes back: exactly the CR-free texts and the expansions of those with a newline. */
  lemma {:induction false} NormalizeExact(raw: string, limit: nat, n: Normalized)
    ensures Normalize(raw, limit) == Success(n) <==>
            && ByteLen(raw) <= limit && '\0' !in raw
            && '\r' !in n.text && (n.crlf ==> '\n' in n.text) && raw == Render(n)
  {
    if Normalize(raw, limit) == Success(n) {
      if n.crlf {
        ExpandCollapse(raw);
        HasCrlfCollapsesToLf(raw);
      } else {
        NoCrlfNoCollapse(raw);
      }
    }
    if ByteLen(raw) <= limit && '\0' !in raw && '\r' !in n.text && (n.crlf ==> '\n' in n.text) && raw == Render(n) {
      if n.crlf {
        ExpandHasCrlf(n.text);
        CollapseExpand(n.text);
      } else {
        CollapsePlain(raw, "");
        CollapsePlain(raw, "\n");
      }
    }
  }
}
