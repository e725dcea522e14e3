/** What `chunkText` promises: nothing visible is lost, passages fit, packing is greedy. */
module ChunkerLaws {
  import opened Wrappers
  import opened Text
  import opened Normalize
  import opened Chunker

  /** The visible units of a list of pieces, in order. */
  function StripAll(ps: seq<Str>): Str {
    if ps == [] then [] else Strip(ps[0]) + StripAll(ps[1..])
  }

  lemma {:induction false} StripAllConcat(a: seq<Str>, b: seq<Str>)
    ensures StripAll(a + b) == StripAll(a) + StripAll(b)
  {
    if a == [] {
      assert a + b == b;
    } else {
      assert (a + b)[1..] == a[1..] + b;
      StripAllConcat(a[1..], b);
    }
  }

  lemma StripSlice(s: Str, p: nat, q: nat, e: nat)
    requires p <= q <= e <= |s| && forall i :: q <= i < e ==> IsWhite(s[i])
    ensures Strip(s[p..]) == Strip(s[p..q]) + Strip(s[e..])
  {
    assert s[p..] == s[p..q] + (s[q..e] + s[e..]);
    StripConcat(s[p..q], s[q..e] + s[e..]);
    StripConcat(s[q..e], s[e..]);
    StripWhite(s[q..e]);
  }

  // ---- Splitting loses only white space ----

  lemma {:induction false} SentencesLossless(s: Str, p: nat, q: nat)
    requires p <= q <= |s|
    ensures StripAll(SentencesFrom(s, p, q)) == Strip(s[p..])
    decreases |s| - q
  {
    if q < |s| {
      if q > 0 && IsSentenceEnd(s[q - 1]) && IsWhite(s[q]) {
        var e := SkipWhite(s, q);
        SentencesLossless(s, e, e);
        StripSlice(s, p, q, e);
        StripAllConcat([s[p..q]], SentencesFrom(s, e, e));
      } else {
        SentencesLossless(s, p, q + 1);
      }
    }
  }

  lemma {:induction false} ParagraphsLossless(s: Str, p: nat, q: nat)
    requires p <= q <= |s|
    ensures StripAll(ParagraphsFrom(s, p, q)) == Strip(s[p..])
    decreases |s| - q
  {
    if q < |s| {
      if q + 1 < |s| && s[q] == LF && s[q + 1] == LF {
        var e := SkipBreaks(s, q);
        ParagraphsLossless(s, e, e);
        StripSlice(s, p, q, e);
        StripAllConcat([s[p..q]], ParagraphsFrom(s, e, e));
      } else {
        ParagraphsLossless(s, p, q + 1);
      }
    }
  }

  // ---- Every piece is non-empty and fits ----

  predicate Fits(ps: seq<Str>, maxChars: nat) {
    forall i :: 0 <= i < |ps| ==> 0 < |ps[i]| <= maxChars
  }

  lemma LastIsVisible(s: Str, q: nat, e: nat)
    requires q < e <= |s| && Trimmed(s) && forall i :: q <= i < e ==> IsWhite(s[i])
    ensures e < |s|
  {
  }

  /** No sentence is empty or starts with white space, because the paragraph is trimmed. */
  lemma {:induction false} SentencesStartVisible(s: Str, p: nat, q: nat)
    requires p <= q <= |s| && s != [] && Trimmed(s)
    requires p < |s| && !IsWhite(s[p])
    requires p > 0 ==> IsWhite(s[p - 1])
    ensures forall i :: 0 <= i < |SentencesFrom(s, p, q)| ==>
      SentencesFrom(s, p, q)[i] != [] && !IsWhite(SentencesFrom(s, p, q)[i][0])
    decreases |s| - q
  {
    if q < |s| {
      if q > 0 && IsSentenceEnd(s[q - 1]) && IsWhite(s[q]) {
        var e := SkipWhite(s, q);
        LastIsVisible(s, q, e);
        SentencesStartVisible(s, e, e);
        assert p < q;
      } else {
        SentencesStartVisible(s, p, q + 1);
      }
    }
  }

  lemma CutHead(rest: Str, maxChars: nat)
    requires 0 < maxChars < |rest| && !IsWhite(rest[0])
    ensures 0 < |Trim(rest[..CutAt(rest, maxChars)])| <= maxChars
  {
    var head := rest[..CutAt(rest, maxChars)];
    TrimProperties(head);
    assert !IsWhite(head[0]);
    StripNonEmpty(head);
  }

  lemma {:induction false} CutFits(rest: Str, maxChars: nat)
    requires maxChars > 0
    requires rest != [] ==> !IsWhite(rest[0])
    ensures Fits(CutSentence(rest, maxChars), maxChars)
    decreases |rest|
  {
    if |rest| > maxChars {
      CutHead(rest, maxChars);
      var tail := rest[CutAt(rest, maxChars)..];
      TrimProperties(tail);
      CutFits(Trim(tail), maxChars);
    }
  }

  lemma {:induction false} CutLossless(rest: Str, maxChars: nat)
    requires maxChars > 0
    ensures StripAll(CutSentence(rest, maxChars)) == Strip(rest)
    decreases |rest|
  {
    if |rest| > maxChars {
      var at := CutAt(rest, maxChars);
      var head, tail := rest[..at], rest[at..];
      TrimProperties(head);
      TrimProperties(tail);
      CutLossless(Trim(tail), maxChars);
      assert CutSentence(rest, maxChars)[1..] == CutSentence(Trim(tail), maxChars);
      assert rest == head + tail;
      StripConcat(head, tail);
    }
  }

  lemma {:induction false} SentencePiecesFit(ss: seq<Str>, maxChars: nat)
    requires maxChars > 0
    requires forall i :: 0 <= i < |ss| ==> ss[i] != [] && !IsWhite(ss[i][0])
    ensures Fits(SentencePieces(ss, maxChars), maxChars)
    ensures StripAll(SentencePieces(ss, maxChars)) == StripAll(ss)
  {
    if ss != [] {
      var first := if |ss[0]| <= maxChars then [ss[0]] else CutSentence(ss[0], maxChars);
      CutFits(ss[0], maxChars);
      CutLossless(ss[0], maxChars);
      SentencePiecesFit(ss[1..], maxChars);
      StripAllConcat(first, SentencePieces(ss[1..], maxChars));
      assert StripAll([ss[0]]) == Strip(ss[0]);
    }
  }

  lemma PiecesOfFit(paragraph: Str, maxChars: nat)
    requires maxChars > 0
    ensures Fits(PiecesOf(paragraph, maxChars), maxChars)
    ensures StripAll(PiecesOf(paragraph, maxChars)) == Strip(paragraph)
  {
    var p := Trim(paragraph);
    TrimProperties(paragraph);
    if |p| > maxChars {
      SentencesStartVisible(p, 0, 0);
      SentencePiecesFit(SentencesFrom(p, 0, 0), maxChars);
      SentencesLossless(p, 0, 0);
      assert p[0..] == p;
    } else if p != [] {
      assert StripAll([p]) == Strip(p);
    }
  }

  lemma {:induction false} ParagraphPiecesFit(ps: seq<Str>, maxChars: nat)
    requires maxChars > 0
    ensures Fits(ParagraphPieces(ps, maxChars), maxChars)
    ensures StripAll(ParagraphPieces(ps, maxChars)) == StripAll(ps)
  {
    if ps != [] {
      PiecesOfFit(ps[0], maxChars);
      ParagraphPiecesFit(ps[1..], maxChars);
      StripAllConcat(PiecesOf(ps[0], maxChars), ParagraphPieces(ps[1..], maxChars));
    }
  }

  lemma PiecesFit(text: Str, maxChars: nat)
    requires maxChars > 0
    ensures Fits(Pieces(text, maxChars), maxChars)
    ensures StripAll(Pieces(text, maxChars)) == Strip(text)
  {
    ParagraphPiecesFit(ParagraphsFrom(text, 0, 0), maxChars);
    ParagraphsLossless(text, 0, 0);
    assert text[0..] == text;
  }

  // ---- Packing, described by the pieces in each body ----

  function JoinAll(group: seq<Str>): Str {
    if group == [] then [] else Joined(JoinAll(group[..|group| - 1]), group[|group| - 1])
  }

  function Flatten(groups: seq<seq<Str>>): seq<Str> {
    if groups == [] then [] else groups[0] + Flatten(groups[1..])
  }

  /**
   * `groups` cuts `pieces` into consecutive runs; every run joins to a body that
   * fits, and no body could have taken the first piece of the next run.
   */
  ghost predicate GreedyPacking(groups: seq<seq<Str>>, pieces: seq<Str>, maxChars: nat) {
    && Flatten(groups) == pieces
    && (forall i :: 0 <= i < |groups| ==> groups[i] != [] && |JoinAll(groups[i])| <= maxChars)
    && (forall i :: 0 <= i < |groups| - 1 ==> NoRoom(groups, i, maxChars))
  }

  /** Body `i` could not have taken the first piece of body `i + 1`. */
  predicate NoRoom(groups: seq<seq<Str>>, i: nat, maxChars: nat)
    requires i + 1 < |groups|
  {
    groups[i + 1] != [] && |JoinAll(groups[i])| + |PARAGRAPH_BREAK| + |groups[i + 1][0]| > maxChars
  }

  function Groups(pieces: seq<Str>, open: seq<Str>, maxChars: nat): seq<seq<Str>>
    decreases |pieces|
  {
    if pieces == [] then (if open == [] then [] else [open])
    else if |JoinAll(open + [pieces[0]])| <= maxChars then
      Groups(pieces[1..], open + [pieces[0]], maxChars)
    else (if open == [] then [] else [open]) + Groups(pieces[1..], [pieces[0]], maxChars)
  }

  function JoinEach(groups: seq<seq<Str>>): seq<Str> {
    if groups == [] then [] else [JoinAll(groups[0])] + JoinEach(groups[1..])
  }

  lemma JoinSnoc(open: seq<Str>, piece: Str)
    ensures JoinAll(open + [piece]) == Joined(JoinAll(open), piece)
  {
  }

  lemma {:induction false} JoinNonEmpty(group: seq<Str>, maxChars: nat)
    requires group != [] && Fits(group, maxChars)
    ensures JoinAll(group) != []
  {
  }

  lemma {:induction false} PackIsGroups(pieces: seq<Str>, open: seq<Str>, maxChars: nat)
    requires Fits(pieces, maxChars) && Fits(open, maxChars)
    ensures Pack(pieces, JoinAll(open), maxChars) == JoinEach(Groups(pieces, open, maxChars))
    decreases |pieces|
  {
    if open != [] {
      JoinNonEmpty(open, maxChars);
    }
    if pieces == [] {
      assert JoinEach([open]) == [JoinAll(open)];
    } else {
      JoinSnoc(open, pieces[0]);
      if |JoinAll(open + [pieces[0]])| <= maxChars {
        PackIsGroups(pieces[1..], open + [pieces[0]], maxChars);
      } else {
        PackIsGroups(pieces[1..], [pieces[0]], maxChars);
        var one := [pieces[0]];
        assert one[..0] == [];
        assert JoinAll(one) == pieces[0];
        if open != [] {
          var rest := Groups(pieces[1..], [pieces[0]], maxChars);
          assert ([open] + rest)[1..] == rest;
        }
      }
    }
  }

  lemma {:induction false} GroupsFirst(pieces: seq<Str>, open: seq<Str>, maxChars: nat)
    requires open != []
    ensures var r := Groups(pieces, open, maxChars); r != [] && r[0] != [] && r[0][0] == open[0]
    decreases |pieces|
  {
    if pieces != [] {
      GroupsFirst(pieces[1..], open + [pieces[0]], maxChars);
    }
  }

  lemma JoinOne(piece: Str)
    ensures JoinAll([piece]) == piece
  {
  }

  lemma {:induction false} GroupsGreedy(pieces: seq<Str>, open: seq<Str>, maxChars: nat)
    requires Fits(pieces, maxChars) && Fits(open, maxChars)
    requires |JoinAll(open)| <= maxChars
    ensures GreedyPacking(Groups(pieces, open, maxChars), open + pieces, maxChars)
    decreases |pieces|
  {
    if pieces == [] {
      assert open + pieces == open;
      if open != [] {
        assert Flatten([open]) == open + Flatten([open][1..]);
      }
    } else {
      var one := [pieces[0]];
      JoinSnoc(open, pieces[0]);
      JoinOne(pieces[0]);
      if |JoinAll(open + one)| <= maxChars {
        GroupsGreedy(pieces[1..], open + one, maxChars);
        assert (open + one) + pieces[1..] == open + pieces;
      } else {
        GroupsGreedy(pieces[1..], one, maxChars);
        GroupsFirst(pieces[1..], one, maxChars);
        assert one + pieces[1..] == pieces;
        if open != [] {
          JoinNonEmpty(open, maxChars);
          ConsGreedy(open, Groups(pieces[1..], one, maxChars), pieces, maxChars);
        }
      }
    }
  }

  lemma ConsGreedy(open: seq<Str>, rest: seq<seq<Str>>, pieces: seq<Str>, maxChars: nat)
    requires open != [] && |JoinAll(open)| <= maxChars
    requires GreedyPacking(rest, pieces, maxChars)
    requires rest != [] ==> |JoinAll(open)| + |PARAGRAPH_BREAK| + |rest[0][0]| > maxChars
    ensures GreedyPacking([open] + rest, open + pieces, maxChars)
  {
    var all := [open] + rest;
    assert all[1..] == rest;
    forall i: nat | i < |all| - 1
      ensures NoRoom(all, i, maxChars)
    {
      assert all[i + 1] == rest[i];
      if i > 0 {
        assert all[i] == rest[i - 1];
        assert NoRoom(rest, i - 1, maxChars);
      }
    }
  }

  /** The bodies are a greedy packing of the pieces. */
  lemma BodiesGreedy(text: Str, maxChars: nat)
    requires maxChars > 0
    ensures exists groups :: GreedyPacking(groups, Pieces(text, maxChars), maxChars)
                          && Bodies(text, maxChars) == JoinEach(groups)
  {
    PiecesFit(text, maxChars);
    var pieces := Pieces(text, maxChars);
    PackIsGroups(pieces, [], maxChars);
    GroupsGreedy(pieces, [], maxChars);
    assert [] + pieces == pieces;
  }

  /** The first run of a greedy packing is as long as it can be, so it is determined. */
  lemma {:induction false} GreedyStep(groups: seq<seq<Str>>, open: seq<Str>, pieces: seq<Str>, maxChars: nat)
    requires Fits(open, maxChars) && Fits(pieces, maxChars)
    requires groups != [] && GreedyPacking(groups, open + pieces, maxChars)
    requires |open| <= |groups[0]| && groups[0][..|open|] == open && open != []
    ensures groups == Groups(pieces, open, maxChars)
    decreases |pieces|
  {
    var g, rest := groups[0], groups[1..];
    assert Flatten(groups) == g + Flatten(rest);
    if |g| == |open| {
      assert g == open;
      assert Flatten(rest) == pieces by {
        assert (open + pieces)[|open|..] == pieces;
        assert (g + Flatten(rest))[|open|..] == Flatten(rest);
      }
      if rest != [] {
        assert rest[0] == groups[1] && rest[0] != [];
        var next := rest[0];
        assert Flatten(rest) == next + Flatten(rest[1..]);
        assert pieces[0] == next[0];
        assert NoRoom(groups, 0, maxChars);
        JoinSnoc(open, pieces[0]);
        JoinNonEmpty(open, maxChars);
        assert |JoinAll(open + [pieces[0]])| > maxChars;
        TailGreedy(groups, open + pieces, maxChars);
        assert [pieces[0]] + pieces[1..] == pieces;
        GreedyStep(rest, [pieces[0]], pieces[1..], maxChars);
        assert groups == [open] + rest;
      }
    } else {
      assert (open + pieces)[|open|] == g[|open|];
      assert pieces[0] == g[|open|];
      var more := open + [pieces[0]];
      assert g[..|more|] == more;
      JoinPrefix(g, |more|, maxChars);
      assert more + pieces[1..] == open + pieces;
      GreedyStep(groups, more, pieces[1..], maxChars);
    }
  }

  lemma TailGreedy(groups: seq<seq<Str>>, pieces: seq<Str>, maxChars: nat)
    requires groups != [] && GreedyPacking(groups, pieces, maxChars)
    ensures GreedyPacking(groups[1..], Flatten(groups[1..]), maxChars)
  {
    var rest := groups[1..];
    forall i: nat | i < |rest| - 1
      ensures NoRoom(rest, i, maxChars)
    {
      assert NoRoom(groups, i + 1, maxChars);
    }
  }

  lemma {:induction false} JoinPrefix(group: seq<Str>, n: nat, maxChars: nat)
    requires n <= |group|
    ensures |JoinAll(group[..n])| <= |JoinAll(group)|
  {
    if n < |group| {
      var init := group[..|group| - 1];
      JoinPrefix(init, n, maxChars);
      assert init[..n] == group[..n];
    } else {
      assert group[..n] == group;
    }
  }

  lemma GroupsFromFirst(pieces: seq<Str>, maxChars: nat)
    requires pieces != [] && Fits(pieces, maxChars)
    ensures Groups(pieces, [], maxChars) == Groups(pieces[1..], [pieces[0]], maxChars)
  {
  }

  lemma FirstOfFlatten(groups: seq<seq<Str>>, pieces: seq<Str>, maxChars: nat)
    requires groups != [] && GreedyPacking(groups, pieces, maxChars)
    ensures pieces != [] && groups[0][0] == pieces[0]
  {
  }

  lemma GreedyIsGroups(groups: seq<seq<Str>>, pieces: seq<Str>, maxChars: nat)
    requires Fits(pieces, maxChars) && GreedyPacking(groups, pieces, maxChars)
    ensures groups == Groups(pieces, [], maxChars)
  {
    if groups != [] {
      FirstOfFlatten(groups, pieces, maxChars);
      GroupsFromFirst(pieces, maxChars);
      assert [pieces[0]] + pieces[1..] == pieces;
      GreedyStep(groups, [pieces[0]], pieces[1..], maxChars);
    }
  }

  /** Greediness leaves no choice: any greedy packing yields exactly the bodies computed. */
  lemma GreedyPackingUnique(groups: seq<seq<Str>>, text: Str, maxChars: nat)
    requires maxChars > 0
    requires GreedyPacking(groups, Pieces(text, maxChars), maxChars)
    ensures JoinEach(groups) == Bodies(text, maxChars)
  {
    PiecesFit(text, maxChars);
    PackIsGroups(Pieces(text, maxChars), [], maxChars);
    GreedyIsGroups(groups, Pieces(text, maxChars), maxChars);
  }

  // ---- The main results ----

  lemma {:induction false} StripJoin(group: seq<Str>)
    ensures Strip(JoinAll(group)) == StripAll(group)
  {
    if group != [] {
      var n := |group| - 1;
      StripJoin(group[..n]);
      assert group == group[..n] + [group[n]];
      StripAllConcat(group[..n], [group[n]]);
      assert StripAll([group[n]]) == Strip(group[n]);
      var front := JoinAll(group[..n]);
      StripConcat(front + PARAGRAPH_BREAK, group[n]);
      StripConcat(front, PARAGRAPH_BREAK);
      StripWhite(PARAGRAPH_BREAK);
    }
  }

  lemma {:induction false} StripGroups(groups: seq<seq<Str>>)
    ensures StripAll(JoinEach(groups)) == StripAll(Flatten(groups))
  {
    if groups != [] {
      StripJoin(groups[0]);
      StripGroups(groups[1..]);
      StripAllConcat(groups[0], Flatten(groups[1..]));
      StripAllConcat([JoinAll(groups[0])], JoinEach(groups[1..]));
      assert StripAll([JoinAll(groups[0])]) == Strip(JoinAll(groups[0]));
    }
  }

  /** Nothing visible is lost, duplicated or reordered, for any document whatever. */
  lemma BodiesLossless(raw: Str, maxChars: nat)
    requires maxChars > 0
    ensures StripAll(Bodies(NormalizeText(raw), maxChars)) == Strip(NormalizeText(raw)) == Strip(raw)
  {
    var text := NormalizeText(raw);
    NormalizeShape(raw);
    PiecesFit(text, maxChars);
    BodiesGreedy(text, maxChars);
    var groups :| GreedyPacking(groups, Pieces(text, maxChars), maxChars)
               && Bodies(text, maxChars) == JoinEach(groups);
    StripGroups(groups);
  }

  lemma BodiesFit(text: Str, maxChars: nat)
    requires maxChars > 0
    ensures forall i :: 0 <= i < |Bodies(text, maxChars)| ==> |Bodies(text, maxChars)[i]| <= maxChars
  {
    BodiesGreedy(text, maxChars);
    var groups :| GreedyPacking(groups, Pieces(text, maxChars), maxChars)
               && Bodies(text, maxChars) == JoinEach(groups);
    JoinEachFits(groups, maxChars);
  }

  lemma {:induction false} JoinEachFits(groups: seq<seq<Str>>, maxChars: nat)
    requires forall i :: 0 <= i < |groups| ==> |JoinAll(groups[i])| <= maxChars
    ensures forall i :: 0 <= i < |JoinEach(groups)| ==> |JoinEach(groups)[i]| <= maxChars
  {
    if groups != [] {
      JoinEachFits(groups[1..], maxChars);
    }
  }

  lemma ChunkShape(bodies: seq<Str>, i: nat, maxChars: nat, overlapChars: nat)
    requires i < |bodies| && |bodies[i]| <= maxChars
    ensures var chunk, body := MakeChunk(bodies, i, overlapChars), bodies[i];
            && |body| <= |chunk.text| <= maxChars + overlapChars
            && chunk.text[|chunk.text| - |body|..] == body
  {
  }

  /** Every body fits, every chunk stays within maxChars + overlapChars and ends with its body. */
  lemma ChunkBounds(raw: Str, maxChars: int, overlapChars: int, i: nat)
    requires Chunks(raw, maxChars, overlapChars).Ok?
    requires i < |Chunks(raw, maxChars, overlapChars).value|
    ensures var bodies := Bodies(NormalizeText(raw), maxChars);
            var chunk := Chunks(raw, maxChars, overlapChars).value[i];
            && |bodies| == |Chunks(raw, maxChars, overlapChars).value|
            && |bodies[i]| <= maxChars
            && |bodies[i]| <= |chunk.text| <= maxChars + overlapChars
            && chunk.text[|chunk.text| - |bodies[i]|..] == bodies[i]
            && chunk.position == i
  {
    var bodies := Bodies(NormalizeText(raw), maxChars);
    BodiesFit(NormalizeText(raw), maxChars);
    ChunkShape(bodies, i, maxChars, overlapChars);
  }

  /**
   * A non-empty overlap is a suffix of the previous body, shorter than the limit,
   * that starts right after a space; and it is the longest such suffix.
   */
  lemma OverlapWordAligned(text: Str, overlapChars: nat)
    ensures var r := TailForOverlap(text, overlapChars);
            r != [] ==>
              && |r| < overlapChars < |text|
              && text[|text| - |r|..] == r
              && text[|text| - |r| - 1] == SP
              && forall j :: |text| - overlapChars <= j < |text| - |r| - 1 ==> text[j] != SP
  {
  }

  /** The overlap is dropped only when the body is short or its tail has no word boundary. */
  lemma OverlapMissing(text: Str, overlapChars: nat)
    ensures TailForOverlap(text, overlapChars) == [] <==>
      || |text| <= overlapChars || overlapChars == 0
      || (forall j :: |text| - overlapChars <= j < |text| - 1 ==> text[j] != SP)
  {
  }

  /** A text and its normal form are chunked alike. */
  lemma ChunksOfNormalForm(raw: Str, maxChars: int, overlapChars: int)
    ensures Chunks(NormalizeText(raw), maxChars, overlapChars) == Chunks(raw, maxChars, overlapChars)
  {
    NormalizeIdempotent(raw);
  }
}
