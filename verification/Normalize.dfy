/** Canonical text form (`normalizeText`). Unicode NFC is taken as the identity. */
module Normalize {
  import opened Text

  /** `\r\n?` becomes a line feed. */
  function UnifyLineEnds(s: Str): (r: Str) {
    if s == [] then []
    else if s[0] != CR then [s[0]] + UnifyLineEnds(s[1..])
    else if |s| > 1 && s[1] == LF then [LF] + UnifyLineEnds(s[2..])
    else [LF] + UnifyLineEnds(s[1..])
  }

  predicate IsBlank(c: CodeUnit) {
    c == TAB || c == FF || c == VT || c == NBSP || c == SP
  }

  function DropBlanks(s: Str): (r: Str)
    ensures |r| <= |s|
    ensures r != [] ==> !IsBlank(r[0])
    ensures Strip(r) == Strip(s)
  {
    if s != [] && IsBlank(s[0]) then DropBlanks(s[1..]) else s
  }

  /** A run of blanks becomes one space. */
  function CollapseBlanks(s: Str): (r: Str)
    decreases |s|
  {
    if s == [] then []
    else if IsBlank(s[0]) then [SP] + CollapseBlanks(DropBlanks(s[1..]))
    else [s[0]] + CollapseBlanks(s[1..])
  }

  /** ` *\n *` becomes a line feed: the leftmost match, as a regular expression scans. */
  function TightenLines(s: Str): (r: Str)
    decreases |s|
  {
    if s == [] then []
    else
      var k := Leading(s, SP);
      if k < |s| && s[k] == LF then
        var rest := s[k + 1..];
        [LF] + TightenLines(rest[Leading(rest, SP)..])
      else [s[0]] + TightenLines(s[1..])
  }

  /** Three or more line feeds become two. */
  function LimitBreaks(s: Str): (r: Str)
    decreases |s|
  {
    if s == [] then []
    else
      var k := Leading(s, LF);
      if k >= 3 then [LF, LF] + LimitBreaks(s[k..])
      else [s[0]] + LimitBreaks(s[1..])
  }

  function NormalizeText(raw: Str): (r: Str) {
    Trim(LimitBreaks(TightenLines(CollapseBlanks(UnifyLineEnds(raw)))))
  }

  // ---- The shape every normalised text has ----

  predicate NoReturns(s: Str) {
    forall i :: 0 <= i < |s| ==> s[i] != CR
  }

  /** Spaces are the only blanks, and never two in a row. */
  predicate SingleSpaced(s: Str) {
    && (forall i :: 0 <= i < |s| ==> IsBlank(s[i]) ==> s[i] == SP)
    && (forall i :: 0 <= i < |s| - 1 ==> s[i] == SP ==> s[i + 1] != SP)
  }

  predicate TightLines(s: Str) {
    && (forall i :: 0 <= i < |s| - 1 ==> s[i] == SP ==> s[i + 1] != LF)
    && (forall i :: 0 <= i < |s| - 1 ==> s[i] == LF ==> s[i + 1] != SP)
  }

  predicate FewBreaks(s: Str) {
    forall i :: 0 <= i < |s| - 2 ==> s[i] == LF && s[i + 1] == LF ==> s[i + 2] != LF
  }

  predicate NormalForm(s: Str) {
    NoReturns(s) && SingleSpaced(s) && TightLines(s) && FewBreaks(s) && Trimmed(s)
  }

  // ---- One lemma per pass: what it establishes, what it keeps, when it does nothing ----

  lemma {:induction false} UnifyLineEndsPass(s: Str)
    ensures NoReturns(UnifyLineEnds(s))
    ensures Strip(UnifyLineEnds(s)) == Strip(s)
    ensures NoReturns(s) ==> UnifyLineEnds(s) == s
  {
    if s != [] {
      var k := if s[0] == CR && |s| > 1 && s[1] == LF then 2 else 1;
      UnifyLineEndsPass(s[k..]);
      if k == 2 {
        assert s[1..][1..] == s[2..];
      }
    }
  }

  lemma {:induction false} CollapseBlanksPass(s: Str)
    requires NoReturns(s)
    ensures var r := CollapseBlanks(s);
            && NoReturns(r) && SingleSpaced(r) && Strip(r) == Strip(s)
            && (s != [] && !IsBlank(s[0]) ==> r != [] && r[0] == s[0])
            && (s == [] ==> r == [])
    ensures SingleSpaced(s) ==> CollapseBlanks(s) == s
    decreases |s|
  {
    if s != [] {
      if IsBlank(s[0]) {
        var rest := DropBlanks(s[1..]);
        DropBlanksKeepsNoReturns(s[1..]);
        CollapseBlanksPass(rest);
        assert CollapseBlanks(s) == [SP] + CollapseBlanks(rest);
        if SingleSpaced(s) {
          assert |s| > 1 ==> !IsBlank(s[1]);
          assert rest == s[1..];
        }
      } else {
        CollapseBlanksPass(s[1..]);
        assert CollapseBlanks(s) == [s[0]] + CollapseBlanks(s[1..]);
      }
    }
  }

  lemma {:induction false} DropBlanksKeepsNoReturns(s: Str)
    requires NoReturns(s)
    ensures NoReturns(DropBlanks(s))
  {
    if s != [] && IsBlank(s[0]) {
      DropBlanksKeepsNoReturns(s[1..]);
    }
  }

  lemma {:induction false} StripSpaces(s: Str, k: nat)
    requires k <= |s| && forall i :: 0 <= i < k ==> s[i] == SP || s[i] == LF
    ensures Strip(s[k..]) == Strip(s)
  {
    assert s == s[..k] + s[k..];
    StripConcat(s[..k], s[k..]);
    StripWhite(s[..k]);
  }

  /** Putting one unit in front of a well-spaced text. */
  lemma ConsSpaced(c: CodeUnit, t: Str)
    requires NoReturns(t) && SingleSpaced(t) && c != CR && (IsBlank(c) ==> c == SP)
    requires c == SP && t != [] ==> t[0] != SP
    ensures NoReturns([c] + t) && SingleSpaced([c] + t)
  {
  }

  lemma ConsTight(c: CodeUnit, t: Str)
    requires TightLines(t)
    requires t != [] ==> !(c == SP && t[0] == LF) && !(c == LF && t[0] == SP)
    ensures TightLines([c] + t)
  {
  }

  lemma ConsFewBreaks(c: CodeUnit, t: Str)
    requires FewBreaks(t)
    requires |t| >= 2 ==> !(c == LF && t[0] == LF && t[1] == LF)
    ensures FewBreaks([c] + t)
  {
  }

  lemma TailKeepsShape(s: Str, k: nat)
    requires k <= |s|
    ensures NoReturns(s) ==> NoReturns(s[k..])
    ensures SingleSpaced(s) ==> SingleSpaced(s[k..])
    ensures TightLines(s) ==> TightLines(s[k..])
    ensures FewBreaks(s) ==> FewBreaks(s[k..])
  {
  }

  /** What `TightenLines` puts first. */
  function TightHead(s: Str): CodeUnit
    requires s != []
  {
    var k := Leading(s, SP);
    if k < |s| && s[k] == LF then LF else s[0]
  }

  /** What `TightenLines` still has to read after emitting its head. */
  function TightRest(s: Str): (r: Str)
    requires s != []
    ensures |r| < |s| && r == s[|s| - |r|..]
  {
    var k := Leading(s, SP);
    if k < |s| && s[k] == LF then
      var j := Leading(s[k + 1..], SP);
      assert s[k + 1..][j..] == s[k + 1 + j..];
      s[k + 1..][j..]
    else s[1..]
  }

  lemma TightenUnfold(s: Str)
    requires s != []
    ensures TightenLines(s) == [TightHead(s)] + TightenLines(TightRest(s))
  {
  }

  lemma {:induction false} TightenLinesHead(s: Str)
    ensures TightenLines(s) == [] <==> s == []
    ensures s != [] ==> TightenLines(s)[0] == TightHead(s)
  {
  }

  /** After a space that ends no line comes neither a space nor a line feed; after a line feed, no space. */
  lemma TightHeadFits(s: Str)
    requires s != [] && SingleSpaced(s) && TightRest(s) != []
    ensures TightHead(s) == SP ==> TightHead(TightRest(s)) != SP && TightHead(TightRest(s)) != LF
    ensures TightHead(s) == LF ==> TightHead(TightRest(s)) != SP
  {
  }

  lemma {:induction false} TightenLinesPass(s: Str)
    requires NoReturns(s) && SingleSpaced(s)
    ensures NoReturns(TightenLines(s)) && SingleSpaced(TightenLines(s)) && TightLines(TightenLines(s))
    decreases |s|
  {
    if s != [] {
      var rest := TightRest(s);
      TailKeepsShape(s, |s| - |rest|);
      TightenLinesPass(rest);
      TightenUnfold(s);
      TightenLinesHead(rest);
      if rest != [] {
        TightHeadFits(s);
      }
      ConsSpaced(TightHead(s), TightenLines(rest));
      ConsTight(TightHead(s), TightenLines(rest));
    }
  }

  lemma {:induction false} TightenLinesStrip(s: Str)
    ensures Strip(TightenLines(s)) == Strip(s)
    decreases |s|
  {
    if s != [] {
      var k := Leading(s, SP);
      if k < |s| && s[k] == LF {
        var rest := s[k + 1..];
        var j := Leading(rest, SP);
        TightenLinesStrip(rest[j..]);
        StripSpaces(rest, j);
        StripSpaces(s, k + 1);
      } else {
        TightenLinesStrip(s[1..]);
      }
    }
  }

  lemma NoSpaceBefore(s: Str, k: nat)
    requires TightLines(s) && k < |s| && s[k] == LF
    ensures k > 0 ==> s[k - 1] != SP
  {
  }

  lemma StableHead(s: Str)
    requires s != [] && TightLines(s)
    ensures TightHead(s) == s[0] && TightRest(s) == s[1..]
  {
    var k := Leading(s, SP);
    if k < |s| && s[k] == LF {
      NoSpaceBefore(s, k);
      assert k == 0;
      assert s[k + 1..] == s[1..];
      assert Leading(s[1..], SP) == 0;
    }
  }

  lemma {:induction false} TightenLinesStable(s: Str)
    requires TightLines(s)
    ensures TightenLines(s) == s
    decreases |s|
  {
    if s != [] {
      StableHead(s);
      TailKeepsShape(s, 1);
      TightenLinesStable(s[1..]);
      TightenUnfold(s);
    }
  }

  lemma LimitBreaksHead(s: Str)
    ensures LimitBreaks(s) == [] <==> s == []
    ensures s != [] ==> LimitBreaks(s)[0] == s[0]
  {
  }

  lemma {:induction false} LimitBreaksPass(s: Str)
    requires NoReturns(s) && SingleSpaced(s) && TightLines(s)
    ensures NoReturns(LimitBreaks(s)) && SingleSpaced(LimitBreaks(s)) && TightLines(LimitBreaks(s))
    decreases |s|
  {
    if s != [] {
      var k := Leading(s, LF);
      var j := if k >= 3 then k else 1;
      TailKeepsShape(s, j);
      LimitBreaksPass(s[j..]);
      var t := LimitBreaks(s[j..]);
      LimitBreaksHead(s[j..]);
      assert s[j - 1] == if k >= 3 then LF else s[0];
      ConsSpaced(s[0], t);
      ConsTight(s[0], t);
      if k >= 3 {
        ConsSpaced(LF, [LF] + t);
        ConsTight(LF, [LF] + t);
        assert [LF] + ([LF] + t) == LimitBreaks(s);
      }
    }
  }

  lemma {:induction false} LimitBreaksFew(s: Str)
    ensures FewBreaks(LimitBreaks(s))
    ensures Leading(LimitBreaks(s), LF) == if Leading(s, LF) >= 3 then 2 else Leading(s, LF)
    decreases |s|
  {
    if s != [] {
      var k := Leading(s, LF);
      if k >= 3 {
        LimitBreaksFew(s[k..]);
        var t := LimitBreaks(s[k..]);
        assert Leading(s[k..], LF) == 0;
        LeadingCons(t);
        LeadingCons([LF] + t);
        ConsFewBreaks(LF, t);
        ConsFewBreaks(LF, [LF] + t);
        assert [LF] + ([LF] + t) == LimitBreaks(s);
      } else {
        LimitBreaksFew(s[1..]);
        var t := LimitBreaks(s[1..]);
        assert LimitBreaks(s) == [s[0]] + t;
        if s[0] == LF {
          assert Leading(t, LF) == k - 1;
          LeadingCons(t);
        }
        ConsFewBreaks(s[0], t);
      }
    }
  }

  lemma LeadingCons(t: Str)
    ensures Leading([LF] + t, LF) == 1 + Leading(t, LF)
  {
  }

  lemma {:induction false} LimitBreaksStrip(s: Str)
    ensures Strip(LimitBreaks(s)) == Strip(s)
    decreases |s|
  {
    if s != [] {
      var k := Leading(s, LF);
      if k >= 3 {
        LimitBreaksStrip(s[k..]);
        StripSpaces(s, k);
        var r := LimitBreaks(s);
        StripSpaces(r, 2);
        assert r[2..] == LimitBreaks(s[k..]);
      } else {
        LimitBreaksStrip(s[1..]);
      }
    }
  }

  lemma {:induction false} LimitBreaksStable(s: Str)
    requires FewBreaks(s)
    ensures LimitBreaks(s) == s
    decreases |s|
  {
    if s != [] {
      assert |s| >= 3 ==> !(s[0] == LF && s[1] == LF && s[2] == LF);
      TailKeepsShape(s, 1);
      LimitBreaksStable(s[1..]);
    }
  }

  lemma SliceKeepsShape(s: Str, lo: nat, t: Str)
    requires IsSlice(t, s, lo)
    requires NoReturns(s) && SingleSpaced(s) && TightLines(s) && FewBreaks(s)
    ensures NoReturns(t) && SingleSpaced(t) && TightLines(t) && FewBreaks(t)
  {
  }

  /** The four passes before the trim leave the shape behind and keep every visible unit. */
  lemma PassesShape(raw: Str)
    ensures var s := LimitBreaks(TightenLines(CollapseBlanks(UnifyLineEnds(raw))));
            NoReturns(s) && SingleSpaced(s) && TightLines(s) && FewBreaks(s) && Strip(s) == Strip(raw)
  {
    var a := UnifyLineEnds(raw);
    UnifyLineEndsPass(raw);
    var b := CollapseBlanks(a);
    CollapseBlanksPass(a);
    var c := TightenLines(b);
    TightenLinesPass(b);
    TightenLinesStrip(b);
    LimitBreaksPass(c);
    LimitBreaksFew(c);
    LimitBreaksStrip(c);
  }

  // ---- The main results ----

  /** Whatever goes in, the output has the normal form and the same visible units in order. */
  lemma NormalizeShape(raw: Str)
    ensures NormalForm(NormalizeText(raw))
    ensures Strip(NormalizeText(raw)) == Strip(raw)
  {
    PassesShape(raw);
    var s := LimitBreaks(TightenLines(CollapseBlanks(UnifyLineEnds(raw))));
    var r := Trim(s);
    TrimProperties(s);
    SliceKeepsShape(s, |s| - |TrimStart(s)|, r);
  }

  /** The fixed points of normalisation are exactly the texts in normal form. */
  lemma NormalizeFixedPoints(s: Str)
    ensures NormalizeText(s) == s <==> NormalForm(s)
  {
    NormalizeShape(s);
    if NormalForm(s) {
      UnifyLineEndsPass(s);
      CollapseBlanksPass(s);
      TightenLinesStable(s);
      LimitBreaksStable(s);
      TrimProperties(s);
    }
  }

  lemma NormalizeIdempotent(raw: Str)
    ensures NormalizeText(NormalizeText(raw)) == NormalizeText(raw)
  {
    NormalizeShape(raw);
    NormalizeFixedPoints(NormalizeText(raw));
  }
}
