/** What normalisation does to the white space between two words, in one pass. */
module NormalizeGaps {
  import opened Text
  import opened Normalize

  // ---- The reference ----

  /** Line ends, and the blanks that normalisation folds: tab, vertical tab, form feed, space, no-break space. */
  predicate IsGap(c: CodeUnit) {
    c == 10 || c == 13 || c == 9 || c == 11 || c == 12 || c == 32 || c == 0xA0
  }

  predicate AllGap(g: Str) {
    forall i :: 0 <= i < |g| ==> IsGap(g[i])
  }

  /** The number of leading blanks and line ends. */
  function GapLength(s: Str): (n: nat)
    ensures n <= |s| && AllGap(s[..n])
    ensures n < |s| ==> !IsGap(s[n])
  {
    if s != [] && IsGap(s[0]) then
      assert forall i :: 0 < i < |s| ==> s[1..][i - 1] == s[i];
      1 + GapLength(s[1..])
    else 0
  }

  /** How many lines end in a gap: a carriage return and the line feed after it are one end. */
  function LineEnds(g: Str): (n: nat) {
    if g == [] then 0
    else if g[0] == CR && |g| > 1 && g[1] == LF then 1 + LineEnds(g[2..])
    else (if g[0] == CR || g[0] == LF then 1 else 0) + LineEnds(g[1..])
  }

  /** A gap inside a line is one space; otherwise it is one line feed, or two for a blank line. */
  function Gap(g: Str): Str {
    if g == [] then []
    else if LineEnds(g) == 0 then [SP]
    else if LineEnds(g) == 1 then [LF]
    else [LF, LF]
  }

  /** Every gap is replaced, and everything else is kept. */
  function Respace(s: Str): Str
    decreases |s|
  {
    if s == [] then []
    else
      var k := GapLength(s);
      if k == 0 then [s[0]] + Respace(s[1..]) else Gap(s[..k]) + Respace(s[k..])
  }

  // ---- Each pass treats a gap by itself ----

  /** What follows a gap. */
  predicate Solid(t: Str) {
    t != [] ==> !IsGap(t[0])
  }

  predicate NoCarriage(g: Str) {
    forall i :: 0 <= i < |g| ==> IsBlank(g[i]) || g[i] == LF
  }

  predicate SpacesAndFeeds(g: Str) {
    forall i :: 0 <= i < |g| ==> g[i] == SP || g[i] == LF
  }

  function Feeds(n: nat): (r: Str)
    ensures |r| == n && forall i :: 0 <= i < n ==> r[i] == LF
  {
    seq(n, _ => LF)
  }

  lemma Reassociate(c: CodeUnit, a: Str, b: Str)
    ensures [c] + (a + b) == ([c] + a) + b
  {
  }

  lemma DropMiddle(g: Str, t: Str, k: nat)
    requires k <= |g|
    ensures (g + t)[k..] == g[k..] + t
  {
  }

  /** One line end or one blank: what is unified in one step. */
  lemma UnifyAt(s: Str, k: nat, rest: Str)
    requires s != [] && k == (if s[0] == CR && |s| > 1 && s[1] == LF then 2 else 1) && rest == s[k..]
    ensures UnifyLineEnds(s) == [if s[0] == CR then LF else s[0]] + UnifyLineEnds(rest)
  {
  }

  lemma LineEndsAt(s: Str, k: nat)
    requires s != [] && k == if s[0] == CR && |s| > 1 && s[1] == LF then 2 else 1
    ensures LineEnds(s) == (if s[0] == CR || s[0] == LF then 1 else 0) + LineEnds(s[k..])
  {
  }

  lemma {:induction false} UnifyGap(g: Str, t: Str)
    requires AllGap(g) && Solid(t)
    ensures UnifyLineEnds(g + t) == UnifyLineEnds(g) + UnifyLineEnds(t)
    ensures NoCarriage(UnifyLineEnds(g)) && LineEnds(UnifyLineEnds(g)) == LineEnds(g)
    ensures UnifyLineEnds(g) == [] <==> g == []
  {
    if g == [] {
      assert g + t == t;
    } else {
      var k := if g[0] == CR && |g| > 1 && g[1] == LF then 2 else 1;
      var c := if g[0] == CR then LF else g[0];
      UnifyAt(g, k, g[k..]);
      LineEndsAt(g, k);
      UnifyAt(g + t, k, g[k..] + t) by {
        DropMiddle(g, t, k);
      }
      UnifyGap(g[k..], t);
      ConsLine(c, UnifyLineEnds(g[k..]));
      Reassociate(c, UnifyLineEnds(g[k..]), UnifyLineEnds(t));
    }
  }

  lemma ConsLine(c: CodeUnit, u: Str)
    requires c != CR
    ensures LineEnds([c] + u) == (if c == LF then 1 else 0) + LineEnds(u)
  {
    assert ([c] + u)[1..] == u;
  }

  lemma {:induction false} DropBlanksGap(g: Str, t: Str)
    requires NoCarriage(g) && Solid(t)
    ensures DropBlanks(g + t) == DropBlanks(g) + t
    ensures var d := DropBlanks(g); NoCarriage(d) && LineEnds(d) == LineEnds(g) && (LineEnds(g) == 0 ==> d == [])
  {
    if g == [] {
      assert g + t == t;
    } else if IsBlank(g[0]) {
      DropBlanksGap(g[1..], t);
      assert (g + t)[1..] == g[1..] + t;
    }
  }

  /** The first step of collapsing a gap, and what is left of the gap after it. */
  lemma CollapseStep(g: Str, t: Str, rest: Str)
    requires g != [] && NoCarriage(g) && Solid(t) && rest == if IsBlank(g[0]) then DropBlanks(g[1..]) else g[1..]
    ensures CollapseBlanks(g + t) == [if IsBlank(g[0]) then SP else LF] + CollapseBlanks(rest + t)
    ensures CollapseBlanks(g) == [if IsBlank(g[0]) then SP else LF] + CollapseBlanks(rest)
  {
    assert (g + t)[1..] == g[1..] + t && (g + t)[0] == g[0];
    DropBlanksGap(g[1..], t);
  }

  lemma CollapseRest(g: Str, rest: Str)
    requires g != [] && NoCarriage(g) && rest == if IsBlank(g[0]) then DropBlanks(g[1..]) else g[1..]
    ensures |rest| < |g| && NoCarriage(rest) && (LineEnds(g) == 0 ==> rest == [])
    ensures LineEnds(g) == (if IsBlank(g[0]) then 0 else 1) + LineEnds(rest)
  {
    DropBlanksGap(g[1..], []);
  }

  lemma {:induction false} CollapseGap(g: Str, t: Str)
    requires NoCarriage(g) && Solid(t)
    ensures CollapseBlanks(g + t) == CollapseBlanks(g) + CollapseBlanks(t)
    ensures SpacesAndFeeds(CollapseBlanks(g)) && LineEnds(CollapseBlanks(g)) == LineEnds(g)
    ensures LineEnds(g) == 0 ==> CollapseBlanks(g) == if g == [] then [] else [SP]
    decreases |g|
  {
    if g == [] {
      assert g + t == t;
    } else {
      var c := if IsBlank(g[0]) then SP else LF;
      var rest := if IsBlank(g[0]) then DropBlanks(g[1..]) else g[1..];
      CollapseStep(g, t, rest);
      CollapseRest(g, rest);
      CollapseGap(rest, t);
      ConsLine(c, CollapseBlanks(rest));
      Reassociate(c, CollapseBlanks(rest), CollapseBlanks(t));
    }
  }

  lemma {:induction false} SkipSpaces(g: Str, t: Str)
    requires SpacesAndFeeds(g) && Solid(t)
    ensures Leading(g + t, SP) == Leading(g, SP)
    ensures LineEnds(g[Leading(g, SP)..]) == LineEnds(g)
    ensures LineEnds(g) == 0 <==> Leading(g, SP) == |g|
  {
    if g == [] {
      assert g + t == t;
    } else if g[0] == SP {
      SkipSpaces(g[1..], t);
      assert (g + t)[1..] == g[1..] + t;
      assert g[1..][Leading(g[1..], SP)..] == g[Leading(g, SP)..];
    }
  }

  /** The spaces around the first line end of a gap go with it. */
  lemma TightenStep(g: Str, t: Str) returns (tail: Str)
    requires SpacesAndFeeds(g) && Solid(t) && LineEnds(g) > 0
    ensures |tail| < |g| && SpacesAndFeeds(tail) && LineEnds(g) == 1 + LineEnds(tail)
    ensures tail != [] ==> LineEnds(tail) > 0
    ensures TightenLines(g + t) == [LF] + TightenLines(tail + t)
  {
    var k := Leading(g, SP);
    SkipSpaces(g, t);
    var rest := g[k + 1..];
    assert g[k..] == [LF] + rest;
    ConsLine(LF, rest);
    SkipSpaces(rest, t);
    tail := rest[Leading(rest, SP)..];
    TightenAt(g + t, k, rest + t, tail + t) by {
      DropMiddle(g, t, k + 1);
      DropMiddle(rest, t, Leading(rest, SP));
    }
  }

  lemma TightenAt(s: Str, k: nat, rest: Str, tail: Str)
    requires k == Leading(s, SP) < |s| && s[k] == LF && rest == s[k + 1..] && tail == rest[Leading(rest, SP)..]
    ensures TightenLines(s) == [LF] + TightenLines(tail)
  {
  }

  /** A gap with line ends shrinks to its line feeds. */
  lemma {:induction false} TightenGap(g: Str, t: Str)
    requires SpacesAndFeeds(g) && Solid(t) && LineEnds(g) > 0
    ensures TightenLines(g + t) == Feeds(LineEnds(g)) + TightenLines(t)
    decreases |g|
  {
    var tail := TightenStep(g, t);
    if tail != [] {
      TightenGap(tail, t);
      Reassociate(LF, Feeds(LineEnds(tail)), TightenLines(t));
      assert [LF] + Feeds(LineEnds(tail)) == Feeds(LineEnds(g));
    } else {
      assert tail + t == t;
      assert [LF] == Feeds(1);
    }
  }

  lemma TightenSpace(t: Str)
    requires Solid(t)
    ensures TightenLines([SP] + t) == [SP] + TightenLines(t)
  {
    SkipSpaces([SP], t);
    assert ([SP] + t)[1..] == t;
  }

  lemma {:induction false} LeadingFeeds(n: nat, t: Str)
    requires t != [] ==> t[0] != LF
    ensures Leading(Feeds(n) + t, LF) == n
  {
    if n == 0 {
      assert Feeds(0) + t == t;
    } else {
      LeadingFeeds(n - 1, t);
      assert (Feeds(n) + t)[1..] == Feeds(n - 1) + t;
    }
  }

  lemma ConsFeeds(n: nat, t: Str)
    requires n > 0
    ensures Feeds(n) + t == [LF] + (Feeds(n - 1) + t)
    ensures (Feeds(n) + t)[1..] == Feeds(n - 1) + t
  {
  }

  lemma {:induction false} LimitFeeds(n: nat, t: Str)
    requires t != [] ==> t[0] != LF
    ensures LimitBreaks(Feeds(n) + t) == Feeds(if n > 2 then 2 else n) + LimitBreaks(t)
  {
    LeadingFeeds(n, t);
    if n >= 3 {
      LimitLong(Feeds(n) + t, n);
      DropMiddle(Feeds(n), t, n);
      assert Feeds(n)[n..] + t == t && Feeds(2) == [LF, LF];
    } else if n == 0 {
      assert Feeds(0) + t == t && Feeds(0) + LimitBreaks(t) == LimitBreaks(t);
    } else {
      ConsFeeds(n, t);
      LimitShort(Feeds(n) + t);
      LimitFeeds(n - 1, t);
      ConsFeeds(n, LimitBreaks(t));
    }
  }

  lemma LimitLong(s: Str, k: nat)
    requires s != [] && k == Leading(s, LF) >= 3
    ensures LimitBreaks(s) == [LF, LF] + LimitBreaks(s[k..])
  {
  }

  lemma LimitShort(s: Str)
    requires s != [] && Leading(s, LF) < 3
    ensures LimitBreaks(s) == [s[0]] + LimitBreaks(s[1..])
  {
  }

  lemma LimitSpace(t: Str)
    ensures LimitBreaks([SP] + t) == [SP] + LimitBreaks(t)
  {
    assert ([SP] + t)[1..] == t;
  }

  // ---- And keeps what is not a gap ----

  lemma KeepSolid(c: CodeUnit, t: Str)
    requires !IsGap(c)
    ensures UnifyLineEnds([c] + t) == [c] + UnifyLineEnds(t)
    ensures CollapseBlanks([c] + t) == [c] + CollapseBlanks(t)
    ensures TightenLines([c] + t) == [c] + TightenLines(t)
    ensures LimitBreaks([c] + t) == [c] + LimitBreaks(t)
  {
    assert ([c] + t)[1..] == t;
  }

  lemma StaysSolid(t: Str)
    requires Solid(t)
    ensures Solid(UnifyLineEnds(t)) && Solid(CollapseBlanks(t)) && Solid(TightenLines(t))
  {
    if t != [] {
      KeepSolid(t[0], t[1..]);
      assert t == [t[0]] + t[1..];
    }
  }

  /** The four regular expressions, one after the other. */
  function Passes(s: Str): Str {
    LimitBreaks(TightenLines(CollapseBlanks(UnifyLineEnds(s))))
  }

  lemma KeepThroughPasses(c: CodeUnit, t: Str)
    requires !IsGap(c)
    ensures Passes([c] + t) == [c] + Passes(t)
  {
    KeepSolid(c, t);
    KeepSolid(c, UnifyLineEnds(t));
    KeepSolid(c, CollapseBlanks(UnifyLineEnds(t)));
    KeepSolid(c, TightenLines(CollapseBlanks(UnifyLineEnds(t))));
  }

  lemma GapThroughPasses(g: Str, t: Str)
    requires AllGap(g) && Solid(t)
    ensures Passes(g + t) == Gap(g) + Passes(t)
  {
    UnifyGap(g, t);
    StaysSolid(t);
    var g1, t1 := UnifyLineEnds(g), UnifyLineEnds(t);
    CollapseGap(g1, t1);
    StaysSolid(t1);
    var g2, t2 := CollapseBlanks(g1), CollapseBlanks(t1);
    StaysSolid(t2);
    if LineEnds(g) > 0 {
      TightenGap(g2, t2);
      LimitFeeds(LineEnds(g), TightenLines(t2));
      assert Feeds(1) == [LF] && Feeds(2) == [LF, LF];
    } else if g == [] {
      assert g + t == t;
    } else {
      TightenSpace(t2);
      LimitSpace(TightenLines(t2));
    }
  }

  lemma SplitAt(s: Str, k: nat)
    requires k <= |s|
    ensures s == s[..k] + s[k..]
  {
  }

  lemma {:induction false} PassesRespace(s: Str)
    ensures Passes(s) == Respace(s)
    decreases |s|
  {
    var k := GapLength(s);
    if s == [] {
      NothingToRespace();
    } else if k == 0 {
      PassesRespace(s[1..]);
      KeepThroughPasses(s[0], s[1..]);
      SplitAt(s, 1);
      assert s[..1] == [s[0]];
    } else {
      PassesRespace(s[k..]);
      GapThroughPasses(s[..k], s[k..]);
      SplitAt(s, k);
    }
  }

  lemma NothingToRespace()
    ensures Passes([]) == []
  {
  }

  /**
   * The passes amount to one: each gap between two words becomes a space, a line feed or a
   * blank line by the number of lines that end in it, every other unit is kept, and the ends are
   * trimmed.
   */
  lemma NormalizeIsRespacing(raw: Str)
    ensures NormalizeText(raw) == Trim(Respace(raw))
  {
    PassesRespace(raw);
  }

  /** Text with every line feed written as `ending`. */
  function WithLineEnds(s: Str, ending: Str): Str {
    if s == [] then [] else (if s[0] == LF then ending else [s[0]]) + WithLineEnds(s[1..], ending)
  }

  lemma {:induction false} UnifyUndoes(s: Str, ending: Str)
    requires NoReturns(s) && (ending == [CR] || ending == [CR, LF])
    ensures UnifyLineEnds(WithLineEnds(s, ending)) == s
    ensures WithLineEnds(s, ending) != [] ==> WithLineEnds(s, ending)[0] != LF
  {
    if s != [] {
      var rest := WithLineEnds(s[1..], ending);
      UnifyUndoes(s[1..], ending);
      if s[0] == LF {
        UnifyAt(ending + rest, |ending|, rest);
      } else {
        UnifyAt([s[0]] + rest, 1, rest);
      }
      assert s == [s[0]] + s[1..];
    }
  }

  /** A text reads the same whether its lines end in LF, CR or CR LF. */
  lemma LineEndsDoNotMatter(s: Str)
    requires NoReturns(s)
    ensures NormalizeText(WithLineEnds(s, [CR, LF])) == NormalizeText(WithLineEnds(s, [CR])) == NormalizeText(s)
  {
    UnifyUndoes(s, [CR, LF]);
    UnifyUndoes(s, [CR]);
    UnifyLineEndsPass(s);
  }
}
