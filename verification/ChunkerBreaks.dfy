/** Where a text may be broken: between paragraphs, after sentences, and inside a sentence only for its length. */
module ChunkerBreaks {
  import opened Wrappers
  import opened Text
  import opened Normalize
  import opened Chunker
  import opened ChunkerLaws

  // ---- What a split of a paragraph is ----

  /** The full stop, exclamation and question mark, the Arabic question mark, the Urdu full stop and the ellipsis. */
  const SENTENCE_ENDS: set<CodeUnit> := {0x2E, 0x21, 0x3F, 0x061F, 0x06D4, 0x2026}

  /** White space that follows a sentence end starts at `j`. */
  predicate BreakAt(p: Str, j: nat) {
    0 < j < |p| && p[j - 1] in SENTENCE_ENDS && IsWhite(p[j])
  }

  /** No sentence ends after `lo` and before `hi`. */
  predicate Unbroken(p: Str, lo: nat, hi: nat) {
    forall j: nat :: lo < j < hi ==> !BreakAt(p, j)
  }

  predicate AllWhite(p: Str, lo: nat, hi: nat)
    requires hi <= |p|
  {
    forall j :: lo <= j < hi ==> IsWhite(p[j])
  }

  /** The last space in the second half of the `maxChars` units from `a` on, or their end if there is none. */
  predicate CutPoint(p: Str, a: nat, c: nat, maxChars: nat)
    requires a + maxChars < |p|
  {
    && a < c <= a + maxChars
    && (forall j :: c < j <= a + maxChars ==> p[j] != SP)
    && if p[c] == SP then 2 * (c - a) > maxChars
       else c == a + maxChars && forall j :: a <= j < c && 2 * (j - a) > maxChars ==> p[j] != SP
  }

  /** The piece [a, e) is what is left of a sentence, and fits; the next piece starts behind the break. */
  predicate EndsSentence(p: Str, a: nat, e: nat, maxChars: nat) {
    BreakAt(p, e) && Unbroken(p, a, e) && e - a <= maxChars
  }

  /** The sentence goes on for more than `maxChars` from `a`, and is cut at `c`, between the two pieces. */
  predicate CutsSentence(p: Str, a: nat, e: nat, c: nat, b: nat, maxChars: nat) {
    && a + maxChars < |p| && Unbroken(p, a, a + maxChars + 1)
    && CutPoint(p, a, c, maxChars) && e <= c <= b
  }

  /** From the piece [a, e) to a piece that starts at `b`. */
  ghost predicate GoesTo(p: Str, a: nat, e: nat, b: nat, maxChars: nat) {
    && a < e <= b < |p| && AllWhite(p, e, b)
    && (EndsSentence(p, a, e, maxChars) || exists c :: CutsSentence(p, a, e, c, b, maxChars))
  }

  /** The piece [a, |p|) is the rest of the last sentence, and fits. */
  predicate Closes(p: Str, a: nat, maxChars: nat) {
    a < |p| <= a + maxChars && Unbroken(p, a, |p|)
  }

  predicate PieceAt(p: Str, a: nat, piece: Str) {
    piece != [] && Trimmed(piece) && IsSlice(piece, p, a)
  }

  /** `pieces` are the slices of `p` at `starts`, from `a` on, in order, with only white units between them. */
  ghost predicate IsSplit(p: Str, a: nat, pieces: seq<Str>, starts: seq<nat>, maxChars: nat)
    decreases |pieces|
  {
    && |starts| == |pieces| > 0 && starts[0] == a && PieceAt(p, a, pieces[0])
    && if |pieces| == 1 then Closes(p, a, maxChars) && a + |pieces[0]| == |p|
       else
         && GoesTo(p, a, a + |pieces[0]|, starts[1], maxChars)
         && IsSplit(p, starts[1], pieces[1..], starts[1..], maxChars)
  }

  // ---- The pieces are such a split ----

  lemma {:induction false} TrimEndDropsWhite(s: Str)
    ensures AllWhite(s, |TrimEnd(s)|, |s|)
  {
    if s != [] && IsWhite(s[|s| - 1]) {
      TrimEndDropsWhite(s[..|s| - 1]);
    }
  }

  lemma {:induction false} TrimStartDropsWhite(s: Str)
    ensures AllWhite(s, 0, |s| - |TrimStart(s)|)
  {
    if s != [] && IsWhite(s[0]) {
      TrimStartDropsWhite(s[1..]);
    }
  }

  /** Trimming the end of [a, c), which starts visibly. */
  lemma TrimHead(p: Str, a: nat, c: nat)
    requires a < c <= |p| && !IsWhite(p[a])
    ensures var head := Trim(p[a..c]);
      PieceAt(p, a, head) && a + |head| <= c && AllWhite(p, a + |head|, c)
  {
    var s := p[a..c];
    TrimProperties(s);
    TrimEndDropsWhite(s);
    StripNonEmpty(s) by {
      assert !IsWhite(s[0]);
    }
    assert TrimStart(s) == s;
    forall j | a + |Trim(s)| <= j < c
      ensures IsWhite(p[j])
    {
      assert s[j - a] == p[j];
    }
  }

  /** Trimming the start of [c, e), which ends visibly. */
  lemma TrimTail(p: Str, c: nat, e: nat) returns (b: nat)
    requires c < e <= |p| && !IsWhite(p[e - 1])
    ensures c <= b < e && Trim(p[c..e]) == p[b..e] && AllWhite(p, c, b) && !IsWhite(p[b])
  {
    var s := p[c..e];
    TrimStartDropsWhite(s);
    TrimStartProperties(s);
    b := c + (|s| - |TrimStart(s)|);
    assert s[|s| - 1] == p[e - 1];
    assert TrimStart(s) == p[b..e];
    TrimEndKeeps(TrimStart(s));
    forall j | c <= j < b
      ensures IsWhite(p[j])
    {
      assert s[j - c] == p[j];
    }
  }

  lemma TrimEndKeeps(s: Str)
    requires s != [] && !IsWhite(s[|s| - 1])
    ensures TrimEnd(s) == s
  {
  }

  lemma PrependPiece(p: Str, a: nat, e: nat, b: nat, pieces: seq<Str>, starts: seq<nat>, maxChars: nat)
    requires IsSplit(p, b, pieces, starts, maxChars) && GoesTo(p, a, e, b, maxChars) && PieceAt(p, a, p[a..e])
    ensures IsSplit(p, a, [p[a..e]] + pieces, [a] + starts, maxChars)
  {
    assert ([p[a..e]] + pieces)[1..] == pieces && ([a] + starts)[1..] == starts;
  }

  lemma CutIsCutPoint(p: Str, a: nat, e: nat, maxChars: nat)
    requires 0 < maxChars && a + maxChars < e <= |p|
    ensures CutPoint(p, a, a + CutAt(p[a..e], maxChars), maxChars)
  {
    var rest := p[a..e];
    var cut := LastSpace(rest, maxChars);
    assert forall j :: 0 <= j <= maxChars ==> rest[j] == p[a + j];
    forall j | a <= j <= a + maxChars && j - a > cut
      ensures p[j] != SP
    {
      assert rest[j - a] != SP;
    }
  }

  /** What follows the sentence [a, e): nothing, or a split that starts behind the break. */
  ghost predicate FollowedBy(p: Str, e: nat, rest: seq<Str>, starts: seq<nat>, maxChars: nat) {
    if rest == [] then e == |p| && starts == []
    else
      && BreakAt(p, e) && starts != [] && e <= starts[0] < |p| && AllWhite(p, e, starts[0])
      && IsSplit(p, starts[0], rest, starts, maxChars)
  }

  lemma SentenceThatFits(p: Str, a: nat, e: nat, rest: seq<Str>, starts: seq<nat>, maxChars: nat)
    requires a < e <= |p| && e - a <= maxChars && !IsWhite(p[a]) && !IsWhite(p[e - 1]) && Unbroken(p, a, e)
    requires FollowedBy(p, e, rest, starts, maxChars)
    ensures IsSplit(p, a, [p[a..e]] + rest, [a] + starts, maxChars)
  {
    assert PieceAt(p, a, p[a..e]);
    if rest != [] {
      assert EndsSentence(p, a, e, maxChars);
      PrependPiece(p, a, e, starts[0], rest, starts, maxChars);
    } else {
      assert [p[a..e]] + rest == [p[a..e]] && [a] + starts == [a];
    }
  }

  /** One cut: the head [a, h) is a piece, and `b` is where the tail goes on. */
  lemma CutGoesOn(p: Str, a: nat, c: nat, e: nat, maxChars: nat) returns (h: nat, b: nat)
    requires 0 < maxChars && a + maxChars < e <= |p| && !IsWhite(p[a]) && !IsWhite(p[e - 1]) && Unbroken(p, a, e)
    requires CutPoint(p, a, c, maxChars)
    ensures a < h <= b < e && !IsWhite(p[b]) && PieceAt(p, a, p[a..h]) && GoesTo(p, a, h, b, maxChars)
    ensures Trim(p[a..c]) == p[a..h] && Trim(p[c..e]) == p[b..e]
  {
    TrimHead(p, a, c);
    h := a + |Trim(p[a..c])|;
    b := TrimTail(p, c, e);
    CutGoesTo(p, a, h, c, b, e, maxChars);
  }

  lemma CutUnfolds(p: Str, a: nat, c: nat, e: nat, maxChars: nat)
    requires 0 < maxChars && a + maxChars < e <= |p| && c == a + CutAt(p[a..e], maxChars)
    ensures CutSentence(p[a..e], maxChars) == [Trim(p[a..c])] + CutSentence(Trim(p[c..e]), maxChars)
  {
    assert p[a..e][..c - a] == p[a..c] && p[a..e][c - a..] == p[c..e];
  }

  lemma CutGoesTo(p: Str, a: nat, h: nat, c: nat, b: nat, e: nat, maxChars: nat)
    requires a + maxChars < e <= |p| && Unbroken(p, a, e) && CutPoint(p, a, c, maxChars)
    requires a < h <= c <= b < e && AllWhite(p, h, c) && AllWhite(p, c, b)
    ensures GoesTo(p, a, h, b, maxChars)
  {
    assert CutsSentence(p, a, h, c, b, maxChars);
  }

  lemma {:induction false} SentenceIsSplit(p: Str, a: nat, e: nat, rest: seq<Str>, starts: seq<nat>, maxChars: nat)
      returns (at: seq<nat>)
    requires 0 < maxChars && a < e <= |p| && !IsWhite(p[a]) && !IsWhite(p[e - 1]) && Unbroken(p, a, e)
    requires FollowedBy(p, e, rest, starts, maxChars)
    ensures IsSplit(p, a, CutSentence(p[a..e], maxChars) + rest, at, maxChars)
    decreases e - a
  {
    if e - a <= maxChars {
      SentenceThatFits(p, a, e, rest, starts, maxChars);
      at := [a] + starts;
    } else {
      var c := a + CutAt(p[a..e], maxChars);
      CutIsCutPoint(p, a, e, maxChars);
      CutUnfolds(p, a, c, e, maxChars);
      var h, b := CutGoesOn(p, a, c, e, maxChars);
      var more := SentenceIsSplit(p, b, e, rest, starts, maxChars);
      PrependHead(p, a, h, b, CutSentence(p[b..e], maxChars), rest, more, maxChars);
      at := [a] + more;
    }
  }

  lemma PrependHead(p: Str, a: nat, h: nat, b: nat, pieces: seq<Str>, rest: seq<Str>, starts: seq<nat>, maxChars: nat)
    requires IsSplit(p, b, pieces + rest, starts, maxChars) && GoesTo(p, a, h, b, maxChars) && PieceAt(p, a, p[a..h])
    ensures IsSplit(p, a, ([p[a..h]] + pieces) + rest, [a] + starts, maxChars)
  {
    PrependPiece(p, a, h, b, pieces + rest, starts, maxChars);
    assert [p[a..h]] + (pieces + rest) == ([p[a..h]] + pieces) + rest;
  }

  /** The sentence [a, q), and behind the white space after it a split of the rest. */
  lemma SentenceThenRest(p: Str, a: nat, q: nat, more: seq<nat>, maxChars: nat) returns (at: seq<nat>)
    requires 0 < maxChars && Trimmed(p) && a < q && BreakAt(p, q) && !IsWhite(p[a]) && Unbroken(p, a, q)
    requires SkipWhite(p, q) < |p|
    requires var e := SkipWhite(p, q); IsSplit(p, e, SentencePieces(SentencesFrom(p, e, e), maxChars), more, maxChars)
    ensures IsSplit(p, a, SentencePieces(SentencesFrom(p, a, q), maxChars), at, maxChars)
  {
    var e := SkipWhite(p, q);
    var rest := SentencePieces(SentencesFrom(p, e, e), maxChars);
    assert FollowedBy(p, q, rest, more, maxChars);
    at := SentenceIsSplit(p, a, q, rest, more, maxChars);
    FirstSentence(p[a..q], SentencesFrom(p, e, e), maxChars);
  }

  lemma FirstSentence(sentence: Str, sentences: seq<Str>, maxChars: nat)
    requires 0 < maxChars && sentence != []
    ensures SentencePieces([sentence] + sentences, maxChars)
      == CutSentence(sentence, maxChars) + SentencePieces(sentences, maxChars)
  {
    FittingSentence(sentence, maxChars);
    assert ([sentence] + sentences)[1..] == sentences;
  }

  /** The scan reaches the first break, or the end of the paragraph. */
  lemma {:induction false} ScanToBreak(p: Str, a: nat, q: nat) returns (e: nat)
    requires a <= q <= |p| && Unbroken(p, a, q) && (q == a ==> q < |p| && !IsWhite(p[a]))
    ensures a < e <= |p| && Unbroken(p, a, e) && (e == |p| || BreakAt(p, e))
    ensures SentencesFrom(p, a, q) == SentencesFrom(p, a, e)
    decreases |p| - q
  {
    if q == |p| || BreakAt(p, q) {
      e := q;
    } else {
      e := ScanToBreak(p, a, q + 1);
    }
  }

  lemma ScanStops(p: Str, q: nat)
    requires BreakAt(p, q) && Trimmed(p)
    ensures q < SkipWhite(p, q) < |p| && !IsWhite(p[SkipWhite(p, q)])
  {
    LastIsVisible(p, q, SkipWhite(p, q));
  }

  lemma {:induction false} SentencesAreSplit(p: Str, a: nat, maxChars: nat) returns (at: seq<nat>)
    requires 0 < maxChars && Trimmed(p) && a < |p| && !IsWhite(p[a])
    ensures IsSplit(p, a, SentencePieces(SentencesFrom(p, a, a), maxChars), at, maxChars)
    decreases |p| - a
  {
    var e := ScanToBreak(p, a, a);
    if e == |p| {
      at := LastSentence(p, a, maxChars);
    } else {
      ScanStops(p, e);
      var more := SentencesAreSplit(p, SkipWhite(p, e), maxChars);
      at := SentenceThenRest(p, a, e, more, maxChars);
    }
  }

  /** A sentence that fits needs no cutting. */
  lemma FittingSentence(sentence: Str, maxChars: nat)
    requires 0 < maxChars && sentence != []
    ensures (if |sentence| <= maxChars then [sentence] else CutSentence(sentence, maxChars))
      == CutSentence(sentence, maxChars)
  {
  }

  lemma LastSentence(p: Str, a: nat, maxChars: nat) returns (at: seq<nat>)
    requires 0 < maxChars && Trimmed(p) && a < |p| && !IsWhite(p[a]) && Unbroken(p, a, |p|)
    ensures IsSplit(p, a, SentencePieces(SentencesFrom(p, a, |p|), maxChars), at, maxChars)
  {
    assert p[a..] == p[a..|p|];
    assert FollowedBy(p, |p|, [], [], maxChars);
    at := SentenceIsSplit(p, a, |p|, [], [], maxChars);
    FirstSentence(p[a..], [], maxChars);
    assert [p[a..]] + [] == SentencesFrom(p, a, |p|);
  }

  /**
   * A long paragraph is broken only where it may be: its pieces are slices of it, in order, with only
   * white units between them; each break follows a sentence end, or cuts a sentence that is longer
   * than `maxChars` at the last space of the second half or at `maxChars` itself; and no piece has a
   * sentence break inside.
   */
  lemma LongParagraphIsSplit(paragraph: Str, maxChars: nat) returns (starts: seq<nat>)
    requires 0 < maxChars < |Trim(paragraph)|
    ensures IsSplit(Trim(paragraph), 0, PiecesOf(paragraph, maxChars), starts, maxChars)
  {
    TrimProperties(paragraph);
    starts := SentencesAreSplit(Trim(paragraph), 0, maxChars);
  }

  /** A paragraph that fits is one piece, and a blank one is none. */
  lemma FittingParagraphIsWhole(paragraph: Str, maxChars: nat)
    requires 0 < maxChars && |Trim(paragraph)| <= maxChars
    ensures PiecesOf(paragraph, maxChars) == if Trim(paragraph) == [] then [] else [Trim(paragraph)]
  {
  }

  /** No piece of a split has a sentence break inside. */
  lemma {:induction false} NoBreakInside(p: Str, a: nat, pieces: seq<Str>, starts: seq<nat>, maxChars: nat, k: nat, j: nat)
    requires IsSplit(p, a, pieces, starts, maxChars) && k < |pieces| && 0 < j < |pieces[k]|
    ensures !(pieces[k][j - 1] in SENTENCE_ENDS && IsWhite(pieces[k][j]))
    decreases k
  {
    if k > 0 {
      NoBreakInside(p, starts[1], pieces[1..], starts[1..], maxChars, k - 1, j);
    } else {
      assert !BreakAt(p, a + j) by {
        if |pieces| > 1 && !EndsSentence(p, a, a + |pieces[0]|, maxChars) {
          var c :| CutsSentence(p, a, a + |pieces[0]|, c, starts[1], maxChars);
        }
      }
    }
  }

  // ---- There is one such split ----

  lemma OneEnd(p: Str, a: nat, e: nat, b: nat, e': nat, b': nat, maxChars: nat)
    requires GoesTo(p, a, e, b, maxChars) && GoesTo(p, a, e', b', maxChars)
    requires !IsWhite(p[e - 1]) && !IsWhite(p[b]) && !IsWhite(p[e' - 1]) && !IsWhite(p[b'])
    ensures e == e' && b == b'
  {
    if !EndsSentence(p, a, e, maxChars) && !EndsSentence(p, a, e', maxChars) {
      var c :| CutsSentence(p, a, e, c, b, maxChars);
      var c' :| CutsSentence(p, a, e', c', b', maxChars);
      OneCut(p, a, c, c', maxChars);
    } else if !EndsSentence(p, a, e, maxChars) || !EndsSentence(p, a, e', maxChars) {
      assert false;
    }
  }

  lemma OneCut(p: Str, a: nat, c: nat, c': nat, maxChars: nat)
    requires a + maxChars < |p| && CutPoint(p, a, c, maxChars) && CutPoint(p, a, c', maxChars)
    ensures c == c'
  {
  }

  lemma OnlyOneWay(p: Str, a: nat, e: nat, b: nat, maxChars: nat)
    requires GoesTo(p, a, e, b, maxChars)
    ensures !Closes(p, a, maxChars)
  {
  }

  /** These rules leave no choice: a paragraph has one split. */
  lemma {:induction false} SplitIsUnique(p: Str, a: nat, pieces: seq<Str>, starts: seq<nat>, pieces': seq<Str>,
                                         starts': seq<nat>, maxChars: nat)
    requires IsSplit(p, a, pieces, starts, maxChars) && IsSplit(p, a, pieces', starts', maxChars)
    ensures pieces == pieces' && starts == starts'
    decreases |pieces|
  {
    if |pieces| > 1 {
      OnlyOneWay(p, a, a + |pieces[0]|, starts[1], maxChars);
    }
    if |pieces| > 1 && |pieces'| > 1 {
      OneEnd(p, a, a + |pieces[0]|, starts[1], a + |pieces'[0]|, starts'[1], maxChars);
      SplitIsUnique(p, starts[1], pieces[1..], starts[1..], pieces'[1..], starts'[1..], maxChars);
      assert pieces == [pieces[0]] + pieces[1..] && pieces' == [pieces'[0]] + pieces'[1..];
      assert starts == [a] + starts[1..] && starts' == [a] + starts'[1..];
    }
  }

  // ---- Paragraphs ----

  /** Two line feeds in a row start at `j`. */
  predicate BlankLineAt(text: Str, j: nat) {
    j + 1 < |text| && text[j] == LF && text[j + 1] == LF
  }

  predicate AllBreaks(text: Str, lo: nat, hi: nat)
    requires hi <= |text|
  {
    forall j :: lo <= j < hi ==> text[j] == LF
  }

  /** The part [a, e) ends at the first blank line, all of which is skipped. */
  predicate EndsParagraph(text: Str, a: nat, e: nat, b: nat) {
    && a <= e && BlankLineAt(text, e) && (forall j: nat :: a <= j < e ==> !BlankLineAt(text, j))
    && e < b <= |text| && AllBreaks(text, e, b) && (b < |text| ==> text[b] != LF)
  }

  /** `parts` are the slices of `text` at `starts`, from `a` on, separated by its runs of line feeds. */
  predicate IsParagraphing(text: Str, a: nat, parts: seq<Str>, starts: seq<nat>)
    decreases |parts|
  {
    && |starts| == |parts| > 0 && starts[0] == a && IsSlice(parts[0], text, a)
    && if |parts| == 1 then a + |parts[0]| == |text| && forall j: nat :: a <= j < |text| ==> !BlankLineAt(text, j)
       else
         && EndsParagraph(text, a, a + |parts[0]|, starts[1])
         && IsParagraphing(text, starts[1], parts[1..], starts[1..])
  }

  lemma SkipBreaksStops(s: Str, q: nat)
    requires q <= |s|
    ensures SkipBreaks(s, q) < |s| ==> s[SkipBreaks(s, q)] != LF
    decreases |s| - q
  {
  }

  lemma PrependPart(text: Str, a: nat, e: nat, b: nat, parts: seq<Str>, starts: seq<nat>)
    requires IsParagraphing(text, b, parts, starts) && EndsParagraph(text, a, e, b)
    ensures IsParagraphing(text, a, [text[a..e]] + parts, [a] + starts)
  {
    assert ([text[a..e]] + parts)[1..] == parts && ([a] + starts)[1..] == starts;
  }

  /** A text is cut into paragraphs exactly at its blank lines. */
  lemma {:induction false} ParagraphsAreParagraphing(text: Str, a: nat, q: nat) returns (starts: seq<nat>)
    requires a <= q <= |text| && forall j: nat :: a <= j < q ==> !BlankLineAt(text, j)
    ensures IsParagraphing(text, a, ParagraphsFrom(text, a, q), starts)
    decreases |text| - q
  {
    if q == |text| {
      starts := [a];
    } else if BlankLineAt(text, q) {
      var b := SkipBreaks(text, q);
      SkipBreaksStops(text, q);
      var more := ParagraphsAreParagraphing(text, b, b);
      PrependPart(text, a, q, b, ParagraphsFrom(text, b, b), more);
      starts := [a] + more;
    } else {
      starts := ParagraphsAreParagraphing(text, a, q + 1);
    }
  }

  lemma OneParagraphEnd(text: Str, a: nat, e: nat, b: nat, e': nat, b': nat)
    requires EndsParagraph(text, a, e, b) && EndsParagraph(text, a, e', b')
    ensures e == e' && b == b'
  {
  }

  /** And there is one way to do so. */
  lemma {:induction false} ParagraphingIsUnique(text: Str, a: nat, parts: seq<Str>, starts: seq<nat>, parts': seq<Str>,
                                                starts': seq<nat>)
    requires IsParagraphing(text, a, parts, starts) && IsParagraphing(text, a, parts', starts')
    ensures parts == parts' && starts == starts'
    decreases |parts|
  {
    if |parts| > 1 && |parts'| > 1 {
      OneParagraphEnd(text, a, a + |parts[0]|, starts[1], a + |parts'[0]|, starts'[1]);
      ParagraphingIsUnique(text, starts[1], parts[1..], starts[1..], parts'[1..], starts'[1..]);
      assert parts == [parts[0]] + parts[1..] && parts' == [parts'[0]] + parts'[1..];
      assert starts == [a] + starts[1..] && starts' == [a] + starts'[1..];
    }
  }
}
