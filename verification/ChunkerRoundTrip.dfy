/** Chunking the text of a passage gives that passage back, and what is put in front of it. */
module ChunkerRoundTrip {
  import opened Wrappers
  import opened Text
  import opened Normalize
  import opened Chunker
  import opened ChunkerLaws
  import opened ChunkerBreaks

  // ---- Pieces are in normal form, with no blank line inside ----

  predicate NoBlankLine(s: Str) {
    forall j: nat :: j + 1 < |s| ==> !BlankLineAt(s, j)
  }

  /** The marks of a normal form that every slice keeps. */
  predicate Plain(s: Str) {
    NoReturns(s) && SingleSpaced(s) && TightLines(s) && FewBreaks(s)
  }

  predicate Piece(s: Str) {
    s != [] && Trimmed(s) && Plain(s) && NoBlankLine(s)
  }

  predicate AllPieces(ps: seq<Str>) {
    forall i :: 0 <= i < |ps| ==> Piece(ps[i])
  }

  lemma SliceHasNoBlankLine(r: Str, s: Str, lo: nat)
    requires Plain(s) && IsSlice(r, s, lo)
    requires forall j: nat :: lo <= j && j + 1 < lo + |r| ==> !BlankLineAt(s, j)
    ensures Plain(r) && NoBlankLine(r)
  {
    SliceKeepsShape(s, lo, r);
    forall j: nat | j + 1 < |r|
      ensures !BlankLineAt(r, j)
    {
      assert !BlankLineAt(s, lo + j);
      assert r[j] == s[lo + j] && r[j + 1] == s[lo + j + 1];
    }
  }

  lemma {:induction false} PartsHaveNoBlankLine(text: Str, a: nat, parts: seq<Str>, starts: seq<nat>, k: nat)
    requires Plain(text) && IsParagraphing(text, a, parts, starts) && k < |parts|
    ensures Plain(parts[k]) && NoBlankLine(parts[k])
    decreases k
  {
    if k == 0 {
      SliceHasNoBlankLine(parts[0], text, a);
    } else {
      PartsHaveNoBlankLine(text, starts[1], parts[1..], starts[1..], k - 1);
    }
  }

  lemma {:induction false} SplitPiecesArePieces(p: Str, a: nat, pieces: seq<Str>, starts: seq<nat>, maxChars: nat, k: nat)
    requires Plain(p) && NoBlankLine(p) && IsSplit(p, a, pieces, starts, maxChars) && k < |pieces|
    ensures Piece(pieces[k])
    decreases k
  {
    if k == 0 {
      SliceHasNoBlankLine(pieces[0], p, a);
    } else {
      SplitPiecesArePieces(p, starts[1], pieces[1..], starts[1..], maxChars, k - 1);
    }
  }

  lemma ParagraphGivesPieces(paragraph: Str, maxChars: nat)
    requires maxChars > 0 && Plain(paragraph) && NoBlankLine(paragraph)
    ensures AllPieces(PiecesOf(paragraph, maxChars))
  {
    var p := Trim(paragraph);
    TrimProperties(paragraph);
    SliceHasNoBlankLine(p, paragraph, |paragraph| - |TrimStart(paragraph)|);
    if |p| <= maxChars {
      FittingParagraphIsWhole(paragraph, maxChars);
    } else {
      var starts := LongParagraphIsSplit(paragraph, maxChars);
      var pieces := PiecesOf(paragraph, maxChars);
      forall k | 0 <= k < |pieces|
        ensures Piece(pieces[k])
      {
        SplitPiecesArePieces(p, 0, pieces, starts, maxChars, k);
      }
    }
  }

  lemma {:induction false} ParagraphsGivePieces(ps: seq<Str>, maxChars: nat)
    requires maxChars > 0 && forall i :: 0 <= i < |ps| ==> Plain(ps[i]) && NoBlankLine(ps[i])
    ensures AllPieces(ParagraphPieces(ps, maxChars))
  {
    if ps != [] {
      ParagraphGivesPieces(ps[0], maxChars);
      ParagraphsGivePieces(ps[1..], maxChars);
    }
  }

  lemma TextGivesPieces(text: Str, maxChars: nat)
    requires maxChars > 0 && Plain(text)
    ensures AllPieces(Pieces(text, maxChars))
  {
    var ps := ParagraphsFrom(text, 0, 0);
    var starts := ParagraphsAreParagraphing(text, 0, 0);
    forall k | 0 <= k < |ps|
      ensures Plain(ps[k]) && NoBlankLine(ps[k])
    {
      PartsHaveNoBlankLine(text, 0, ps, starts, k);
    }
    ParagraphsGivePieces(ps, maxChars);
  }

  // ---- Joining pieces is undone by splitting at blank lines ----

  lemma {:induction false} JoinCons(piece: Str, rest: seq<Str>)
    requires piece != [] && rest != [] && forall i :: 0 <= i < |rest| ==> rest[i] != []
    ensures JoinAll([piece] + rest) == piece + PARAGRAPH_BREAK + JoinAll(rest)
    ensures JoinAll(rest) != [] && JoinAll(rest)[0] == rest[0][0]
    decreases |rest|
  {
    var n := |rest| - 1;
    assert ([piece] + rest)[..n + 1] == [piece] + rest[..n];
    if n == 0 {
      JoinOne(piece);
      JoinOne(rest[0]);
      assert [piece] + rest[..n] == [piece];
      assert rest == [rest[0]];
    } else {
      JoinCons(piece, rest[..n]);
      assert JoinAll([piece] + rest) == Joined(JoinAll([piece] + rest[..n]), rest[n]);
      assert JoinAll(rest) == Joined(JoinAll(rest[..n]), rest[n]);
    }
  }

  /** The first of several joined pieces ends at a blank line, behind which the next one starts. */
  lemma FirstPieceEnds(text: Str, a: nat, piece: Str, rest: Str)
    requires a <= |text| && text[a..] == piece + PARAGRAPH_BREAK + rest
    requires Piece(piece) && rest != [] && rest[0] != LF
    ensures IsSlice(piece, text, a) && EndsParagraph(text, a, a + |piece|, a + |piece| + 2)
    ensures text[a + |piece| + 2..] == rest
  {
    var e, s := a + |piece|, text[a..];
    assert forall i :: 0 <= i < |s| ==> s[i] == text[a + i];
    assert s[..|piece|] == piece && s[|piece| + 2..] == rest;
    assert text[e] == s[|piece|] == LF && text[e + 1] == s[|piece| + 1] == LF;
    assert text[e + 2] == s[|piece| + 2] == rest[0];
    forall j: nat | a <= j < e
      ensures !BlankLineAt(text, j)
    {
      assert text[j] == piece[j - a];
      if j + 1 < e {
        assert !BlankLineAt(piece, j - a);
        assert text[j + 1] == piece[j - a + 1];
      }
    }
  }

  lemma {:induction false} JoinedIsParagraphing(text: Str, a: nat, group: seq<Str>) returns (starts: seq<nat>)
    requires a <= |text| && group != [] && AllPieces(group) && text[a..] == JoinAll(group)
    ensures IsParagraphing(text, a, group, starts)
    decreases |group|
  {
    var piece, rest := group[0], group[1..];
    assert group == [piece] + rest;
    if rest == [] {
      JoinOne(piece);
      LastPieceEnds(text, a, piece);
      starts := [a];
    } else {
      JoinCons(piece, rest);
      FirstPieceEnds(text, a, piece, JoinAll(rest));
      var more := JoinedIsParagraphing(text, a + |piece| + 2, rest);
      PrependPart(text, a, a + |piece|, a + |piece| + 2, rest, more);
      starts := [a] + more;
    }
  }

  lemma LastPieceEnds(text: Str, a: nat, piece: Str)
    requires a <= |text| && Piece(piece) && text[a..] == piece
    ensures IsParagraphing(text, a, [piece], [a])
  {
    forall j: nat | a <= j < |text|
      ensures !BlankLineAt(text, j)
    {
      if j + 1 < |text| {
        assert !BlankLineAt(piece, j - a);
        assert text[j] == piece[j - a] && text[j + 1] == piece[j + 1 - a];
      }
    }
  }

  /** Splitting at blank lines undoes joining with them. */
  lemma SplittingUndoesJoining(group: seq<Str>)
    requires group != [] && AllPieces(group)
    ensures ParagraphsFrom(JoinAll(group), 0, 0) == group
  {
    var text := JoinAll(group);
    assert text[0..] == text;
    var mine := JoinedIsParagraphing(text, 0, group);
    var starts := ParagraphsAreParagraphing(text, 0, 0);
    ParagraphingIsUnique(text, 0, group, mine, ParagraphsFrom(text, 0, 0), starts);
  }

  // ---- So a body is chunked into itself ----

  lemma {:induction false} PiecesStayWhole(group: seq<Str>, maxChars: nat)
    requires maxChars > 0 && AllPieces(group) && Fits(group, maxChars)
    ensures ParagraphPieces(group, maxChars) == group
  {
    if group != [] {
      TrimmedStays(group[0]);
      FittingParagraphIsWhole(group[0], maxChars);
      PiecesStayWhole(group[1..], maxChars);
      assert group == [group[0]] + group[1..];
    }
  }

  lemma GroupIsOneBody(group: seq<Str>, maxChars: nat)
    requires maxChars > 0 && group != [] && AllPieces(group) && Fits(group, maxChars) && |JoinAll(group)| <= maxChars
    ensures Bodies(JoinAll(group), maxChars) == [JoinAll(group)]
  {
    SplittingUndoesJoining(group);
    PiecesStayWhole(group, maxChars);
    var groups := [group];
    assert Flatten(groups) == group + Flatten(groups[1..]);
    assert GreedyPacking(groups, Pieces(JoinAll(group), maxChars), maxChars);
    GreedyPackingUnique(groups, JoinAll(group), maxChars);
    assert JoinEach(groups) == [JoinAll(group)] + JoinEach(groups[1..]);
  }

  lemma {:induction false} GroupsAreOfPieces(groups: seq<seq<Str>>, i: nat)
    requires i < |groups|
    ensures forall p :: p in groups[i] ==> p in Flatten(groups)
    ensures |JoinEach(groups)| == |groups| && JoinEach(groups)[i] == JoinAll(groups[i])
    decreases |groups|
  {
    JoinEachLength(groups);
    if i > 0 {
      GroupsAreOfPieces(groups[1..], i - 1);
    }
  }

  lemma {:induction false} JoinEachLength(groups: seq<seq<Str>>)
    ensures |JoinEach(groups)| == |groups|
  {
    if groups != [] {
      JoinEachLength(groups[1..]);
    }
  }

  /** Body `i` of a text joins pieces that fit. */
  lemma BodyIsJoined(text: Str, maxChars: nat, i: nat) returns (group: seq<Str>)
    requires maxChars > 0 && Plain(text) && i < |Bodies(text, maxChars)|
    ensures group != [] && AllPieces(group) && Fits(group, maxChars) && |JoinAll(group)| <= maxChars
    ensures Bodies(text, maxChars)[i] == JoinAll(group)
    ensures forall p :: p in group ==> p in Pieces(text, maxChars)
  {
    BodiesGreedy(text, maxChars);
    var groups :| GreedyPacking(groups, Pieces(text, maxChars), maxChars)
               && Bodies(text, maxChars) == JoinEach(groups);
    JoinEachLength(groups);
    GroupsAreOfPieces(groups, i);
    group := groups[i];
    TextGivesPieces(text, maxChars);
    PiecesFit(text, maxChars);
    forall k | 0 <= k < |group|
      ensures Piece(group[k]) && 0 < |group[k]| <= maxChars
    {
      assert group[k] in Pieces(text, maxChars);
    }
  }

  lemma JoinIsNormal(a: Str, b: Str)
    requires a != [] && b != [] && NormalForm(a) && NormalForm(b)
    ensures NormalForm(a + PARAGRAPH_BREAK + b)
  {
    BreakIsPlain(a, b);
  }

  lemma BreakIsPlain(a: Str, b: Str)
    requires a != [] && b != [] && Trimmed(a) && Trimmed(b) && Plain(a) && Plain(b)
    ensures Plain(a + PARAGRAPH_BREAK + b)
  {
  }

  lemma {:induction false} JoinedIsNormal(group: seq<Str>)
    requires group != [] && AllPieces(group)
    ensures JoinAll(group) != [] && NormalForm(JoinAll(group))
  {
    var n := |group| - 1;
    if n == 0 {
      JoinOne(group[0]);
      assert group == [group[0]];
    } else {
      JoinedIsNormal(group[..n]);
      JoinIsNormal(JoinAll(group[..n]), group[n]);
    }
  }

  /**
   * The body of a passage is chunked into one passage: itself, without an overlap. So the limits of a
   * passage do not depend on the text around it.
   */
  lemma BodyIsItsOwnPassage(raw: Str, maxChars: int, overlapChars: int, i: nat)
    requires Chunks(raw, maxChars, overlapChars).Ok? && i < |Chunks(raw, maxChars, overlapChars).value|
    ensures var body := Bodies(NormalizeText(raw), maxChars)[i];
            Chunks(body, maxChars, overlapChars) == Ok([Chunk(0, body, EstimateTokens(body))])
  {
    NormalizeShape(raw);
    var text := NormalizeText(raw);
    var group := BodyIsJoined(text, maxChars, i);
    var body := JoinAll(group);
    GroupIsOneBody(group, maxChars);
    JoinedIsNormal(group);
    NormalizeFixedPoints(body);
    var chunks := MakeChunks([body], overlapChars);
    assert chunks == [chunks[0]];
  }

  // ---- What stands in front of a body ----

  /** The words of the last `overlapChars` units of a longer body: from behind their first space on. */
  predicate IsOverlap(r: Str, body: Str, overlapChars: int) {
    && r != [] && |r| < overlapChars < |body| && IsSlice(r, body, |body| - |r|)
    && body[|body| - |r| - 1] == SP && NoSpace(body, |body| - overlapChars, |body| - |r| - 1)
  }

  predicate NoSpace(s: Str, lo: int, hi: int) {
    forall j :: 0 <= j < |s| && lo <= j < hi ==> s[j] != SP
  }

  lemma TailIsOverlap(body: Str, overlapChars: nat)
    ensures var r := TailForOverlap(body, overlapChars);
            if r != [] then IsOverlap(r, body, overlapChars) else NothingToTake(body, overlapChars)
  {
    OverlapWordAligned(body, overlapChars);
    OverlapMissing(body, overlapChars);
  }

  predicate NothingToTake(body: Str, overlapChars: int) {
    overlapChars == 0 || |body| <= overlapChars || NoSpace(body, |body| - overlapChars, |body| - 1)
  }

  /**
   * A passage is its body behind an overlap and a line feed. There is an overlap exactly when there is
   * a body before this one that is longer than the overlap and has a word to take over.
   */
  lemma PassageIsOverlapAndBody(raw: Str, maxChars: int, overlapChars: int, i: nat) returns (r: Str)
    requires Chunks(raw, maxChars, overlapChars).Ok? && i < |Chunks(raw, maxChars, overlapChars).value|
    ensures var bodies := Bodies(NormalizeText(raw), maxChars);
            && Chunks(raw, maxChars, overlapChars).value[i].text == (if r == [] then [] else r + [LF]) + bodies[i]
            && (r != [] ==> i > 0 && IsOverlap(r, bodies[i - 1], overlapChars))
            && (r == [] && i > 0 ==> NothingToTake(bodies[i - 1], overlapChars))
  {
    r := ChunkIsOverlapAndBody(Bodies(NormalizeText(raw), maxChars), i, overlapChars);
  }

  lemma ChunkIsOverlapAndBody(bodies: seq<Str>, i: nat, overlapChars: nat) returns (r: Str)
    requires i < |bodies|
    ensures MakeChunk(bodies, i, overlapChars).text == (if r == [] then [] else r + [LF]) + bodies[i]
    ensures r != [] ==> i > 0 && IsOverlap(r, bodies[i - 1], overlapChars)
    ensures r == [] && i > 0 ==> NothingToTake(bodies[i - 1], overlapChars)
  {
    r := Overlap(bodies, i, overlapChars);
    assert [] + bodies[i] == bodies[i];
    if i > 0 {
      TailIsOverlap(bodies[i - 1], overlapChars);
    }
  }

  /** A passage counts a token for every three units of its text, or part of three. */
  lemma TokensRoundUp(raw: Str, maxChars: int, overlapChars: int, i: nat)
    requires Chunks(raw, maxChars, overlapChars).Ok? && i < |Chunks(raw, maxChars, overlapChars).value|
    ensures var chunk := Chunks(raw, maxChars, overlapChars).value[i];
            3 * chunk.tokenCount >= |chunk.text| > 3 * chunk.tokenCount - 3
  {
    var bodies := Bodies(NormalizeText(raw), maxChars);
    assert Chunks(raw, maxChars, overlapChars).value[i] == MakeChunk(bodies, i, overlapChars);
  }
}
