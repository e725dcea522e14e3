/** Splitting a document into overlapping passages (`chunkText`). */
module Chunker {
  import opened Wrappers
  import opened Text
  import opened Normalize

  datatype Chunk = Chunk(position: nat, text: Str, tokenCount: nat)

  datatype RangeError = BadMaxChars | BadOverlapChars

  const DEFAULT_MAX_CHARS: int := 1200
  const DEFAULT_OVERLAP_CHARS: int := 150
  const MIN_MAX_CHARS: int := 50

  /** One token for every three units, rounded up. */
  function EstimateTokens(text: Str): (n: nat)
    ensures 3 * n >= |text| > 3 * n - 3
  {
    (|text| + 2) / 3
  }

  // ---- Splitting ----

  /** Latin, Arabic and Urdu sentence ends, and the ellipsis. */
  predicate IsSentenceEnd(c: CodeUnit) {
    c == 0x2E || c == 0x21 || c == 0x3F || c == 0x061F || c == 0x06D4 || c == 0x2026
  }

  function SkipWhite(s: Str, q: nat): (e: nat)
    requires q <= |s|
    ensures q <= e <= |s|
    ensures forall i :: q <= i < e ==> IsWhite(s[i])
    ensures e < |s| ==> !IsWhite(s[e])
    decreases |s| - q
  {
    if q < |s| && IsWhite(s[q]) then SkipWhite(s, q + 1) else q
  }

  function SkipBreaks(s: Str, q: nat): (e: nat)
    requires q <= |s|
    ensures q <= e <= |s|
    ensures forall i :: q <= i < e ==> s[i] == LF
    decreases |s| - q
  {
    if q < |s| && s[q] == LF then SkipBreaks(s, q + 1) else q
  }

  /** Split on white space that follows a sentence end: `p` starts the open piece, `q` scans. */
  function SentencesFrom(s: Str, p: nat, q: nat): (r: seq<Str>)
    requires p <= q <= |s|
    ensures r != []
    decreases |s| - q
  {
    if q == |s| then [s[p..]]
    else if q > 0 && IsSentenceEnd(s[q - 1]) && IsWhite(s[q]) then
      var e := SkipWhite(s, q);
      [s[p..q]] + SentencesFrom(s, e, e)
    else SentencesFrom(s, p, q + 1)
  }

  /** Split on two or more line feeds. */
  function ParagraphsFrom(s: Str, p: nat, q: nat): (r: seq<Str>)
    requires p <= q <= |s|
    ensures r != []
    decreases |s| - q
  {
    if q == |s| then [s[p..]]
    else if q + 1 < |s| && s[q] == LF && s[q + 1] == LF then
      var e := SkipBreaks(s, q);
      [s[p..q]] + ParagraphsFrom(s, e, e)
    else ParagraphsFrom(s, p, q + 1)
  }

  /** `lastIndexOf(" ", from)`. */
  function LastSpace(s: Str, from: int): (i: int)
    requires -1 <= from < |s|
    ensures -1 <= i <= from
    ensures i >= 0 ==> s[i] == SP
    ensures forall j :: i < j <= from ==> s[j] != SP
    decreases from + 1
  {
    if from == -1 then -1 else if s[from] == SP then from else LastSpace(s, from - 1)
  }

  /** Where a sentence with no usable boundary is cut: the last space, unless it is too early. */
  function CutAt(rest: Str, maxChars: nat): (at: nat)
    requires 0 < maxChars < |rest|
    ensures 0 < at <= maxChars
  {
    var cut := LastSpace(rest, maxChars);
    if 2 * cut > maxChars then cut else maxChars
  }

  function CutSentence(rest: Str, maxChars: nat): (pieces: seq<Str>)
    requires maxChars > 0
    decreases |rest|
  {
    if |rest| > maxChars then
      var at := CutAt(rest, maxChars);
      TrimProperties(rest[at..]);
      [Trim(rest[..at])] + CutSentence(Trim(rest[at..]), maxChars)
    else if |rest| > 0 then [rest] else []
  }

  function SentencePieces(sentences: seq<Str>, maxChars: nat): (pieces: seq<Str>)
    requires maxChars > 0
  {
    if sentences == [] then []
    else
      (if |sentences[0]| <= maxChars then [sentences[0]] else CutSentence(sentences[0], maxChars))
      + SentencePieces(sentences[1..], maxChars)
  }

  lemma {:induction false} SentencePiecesSnoc(ss: seq<Str>, s: Str, maxChars: nat)
    requires maxChars > 0
    ensures SentencePieces(ss + [s], maxChars)
         == SentencePieces(ss, maxChars) + (if |s| <= maxChars then [s] else CutSentence(s, maxChars))
  {
    if ss == [] {
      assert [s][1..] == [];
      assert [] + [s] == [s];
    } else {
      assert (ss + [s])[1..] == ss[1..] + [s];
      SentencePiecesSnoc(ss[1..], s, maxChars);
    }
  }

  function SplitLong(paragraph: Str, maxChars: nat): seq<Str>
    requires maxChars > 0
  {
    SentencePieces(SentencesFrom(paragraph, 0, 0), maxChars)
  }

  lemma Reassociate(a: seq<Str>, x: Str, b: seq<Str>)
    ensures (a + [x]) + b == a + ([x] + b)
  {
  }

  method SplitLongParagraph(paragraph: Str, maxChars: nat) returns (pieces: seq<Str>)
    requires maxChars > 0
    ensures pieces == SplitLong(paragraph, maxChars)
  {
    pieces := [];
    var sentences := SentencesFrom(paragraph, 0, 0);
    for i := 0 to |sentences|
      invariant pieces == SentencePieces(sentences[..i], maxChars)
    {
      var sentence := sentences[i];
      assert sentences[..i + 1] == sentences[..i] + [sentence];
      SentencePiecesSnoc(sentences[..i], sentence, maxChars);
      if |sentence| <= maxChars {
        pieces := pieces + [sentence];
        continue;
      }
      var rest := sentence;
      ghost var goal := pieces + CutSentence(sentence, maxChars);
      while |rest| > maxChars
        invariant pieces + CutSentence(rest, maxChars) == goal
        decreases |rest|
      {
        var at := CutAt(rest, maxChars);
        var head, tail := Trim(rest[..at]), Trim(rest[at..]);
        Reassociate(pieces, head, CutSentence(tail, maxChars));
        pieces, rest := pieces + [head], tail;
      }
      if |rest| > 0 {
        pieces := pieces + [rest];
      }
      assert pieces == goal;
    }
    assert sentences[..|sentences|] == sentences;
  }

  // ---- Pieces and bodies ----

  /** One paragraph: dropped when blank, kept whole when it fits, else split. */
  function PiecesOf(paragraph: Str, maxChars: nat): (pieces: seq<Str>)
    requires maxChars > 0
  {
    var p := Trim(paragraph);
    if p == [] then [] else if |p| <= maxChars then [p] else SplitLong(p, maxChars)
  }

  function ParagraphPieces(paragraphs: seq<Str>, maxChars: nat): (pieces: seq<Str>)
    requires maxChars > 0
  {
    if paragraphs == [] then []
    else PiecesOf(paragraphs[0], maxChars) + ParagraphPieces(paragraphs[1..], maxChars)
  }

  function Pieces(text: Str, maxChars: nat): seq<Str>
    requires maxChars > 0
  {
    ParagraphPieces(ParagraphsFrom(text, 0, 0), maxChars)
  }

  const PARAGRAPH_BREAK: Str := [LF, LF]

  function Joined(current: Str, piece: Str): Str {
    if current == [] then piece else current + PARAGRAPH_BREAK + piece
  }

  /** The bodies still to be emitted when `current` is open and `pieces` remain. */
  function Pack(pieces: seq<Str>, current: Str, maxChars: nat): seq<Str>
    decreases |pieces|
  {
    if pieces == [] then Flush(current)
    else
      var joined := Joined(current, pieces[0]);
      if |joined| <= maxChars then Pack(pieces[1..], joined, maxChars)
      else Flush(current) + Pack(pieces[1..], pieces[0], maxChars)
  }

  function Flush(current: Str): seq<Str> {
    if current == [] then [] else [current]
  }

  function Bodies(text: Str, maxChars: nat): seq<Str>
    requires maxChars > 0
  {
    Pack(Pieces(text, maxChars), [], maxChars)
  }

  /** `indexOf(" ")`, or the length when there is none. */
  function FirstSpace(s: Str): (i: nat)
    ensures i <= |s|
    ensures i < |s| ==> s[i] == SP
    ensures forall j :: 0 <= j < i ==> s[j] != SP
  {
    if s == [] || s[0] == SP then 0 else 1 + FirstSpace(s[1..])
  }

  function TailForOverlap(text: Str, overlapChars: nat): (r: Str) {
    if overlapChars == 0 || |text| <= overlapChars then []
    else
      var tail := text[|text| - overlapChars..];
      var space := FirstSpace(tail);
      if space == |tail| then [] else tail[space + 1..]
  }

  function Overlap(bodies: seq<Str>, i: nat, overlapChars: nat): Str
    requires i < |bodies|
  {
    if i == 0 then [] else TailForOverlap(bodies[i - 1], overlapChars)
  }

  function MakeChunk(bodies: seq<Str>, i: nat, overlapChars: nat): Chunk
    requires i < |bodies|
  {
    var overlap := Overlap(bodies, i, overlapChars);
    var text := if overlap == [] then bodies[i] else overlap + [LF] + bodies[i];
    Chunk(i, text, EstimateTokens(text))
  }

  function MakeChunks(bodies: seq<Str>, overlapChars: nat): (r: seq<Chunk>)
    ensures |r| == |bodies|
    ensures forall i :: 0 <= i < |r| ==> r[i] == MakeChunk(bodies, i, overlapChars)
  {
    seq(|bodies|, i requires 0 <= i < |bodies| => MakeChunk(bodies, i, overlapChars))
  }

  /** The options `chunkText` accepts; anything else is a RangeError. */
  function CheckOptions(maxChars: int, overlapChars: int): (r: Result<(), RangeError>)
    ensures r.Ok? <==> 50 <= maxChars && 0 <= 2 * overlapChars < maxChars
    ensures r == Err(BadMaxChars) <==> maxChars < 50
  {
    if maxChars < MIN_MAX_CHARS then Err(BadMaxChars)
    else if overlapChars < 0 || 2 * overlapChars >= maxChars then Err(BadOverlapChars)
    else Ok(())
  }

  function Chunks(raw: Str, maxChars: int, overlapChars: int): Result<seq<Chunk>, RangeError> {
    match CheckOptions(maxChars, overlapChars)
    case Err(e) => Err(e)
    case Ok(_) => Ok(MakeChunks(Bodies(NormalizeText(raw), maxChars), overlapChars))
  }

  method CollectPieces(text: Str, maxChars: nat) returns (pieces: seq<Str>)
    requires maxChars > 0
    ensures pieces == Pieces(text, maxChars)
  {
    pieces := [];
    var paragraphs := ParagraphsFrom(text, 0, 0);
    for i := 0 to |paragraphs|
      invariant pieces + ParagraphPieces(paragraphs[i..], maxChars) == Pieces(text, maxChars)
    {
      var p := Trim(paragraphs[i]);
      var more: seq<Str> := [];
      if p != [] {
        if |p| <= maxChars {
          more := [p];
        } else {
          more := SplitLongParagraph(p, maxChars);
        }
      }
      assert more == PiecesOf(paragraphs[i], maxChars);
      ConcatStep(pieces, more, paragraphs, i, maxChars);
      pieces := pieces + more;
    }
  }

  lemma ConcatStep(pieces: seq<Str>, more: seq<Str>, paragraphs: seq<Str>, i: nat, maxChars: nat)
    requires maxChars > 0 && i < |paragraphs| && more == PiecesOf(paragraphs[i], maxChars)
    ensures pieces + ParagraphPieces(paragraphs[i..], maxChars)
         == (pieces + more) + ParagraphPieces(paragraphs[i + 1..], maxChars)
  {
  }

  lemma PackStep(pieces: seq<Str>, i: nat, current: Str, maxChars: nat)
    requires i < |pieces|
    ensures var joined := Joined(current, pieces[i]);
      Pack(pieces[i..], current, maxChars) ==
        if |joined| <= maxChars then Pack(pieces[i + 1..], joined, maxChars)
        else Flush(current) + Pack(pieces[i + 1..], pieces[i], maxChars)
  {
  }

  lemma FlushStep(bodies: seq<Str>, current: Str, rest: seq<Str>)
    ensures bodies + (Flush(current) + rest) == (bodies + Flush(current)) + rest
    ensures current == [] ==> bodies + Flush(current) == bodies
  {
  }

  method PackBodies(pieces: seq<Str>, maxChars: nat) returns (bodies: seq<Str>)
    ensures bodies == Pack(pieces, [], maxChars)
  {
    bodies := [];
    var current: Str := [];
    assert pieces[0..] == pieces;
    for i := 0 to |pieces|
      invariant bodies + Pack(pieces[i..], current, maxChars) == Pack(pieces, [], maxChars)
    {
      var joined := Joined(current, pieces[i]);
      PackStep(pieces, i, current, maxChars);
      if |joined| <= maxChars {
        current := joined;
        continue;
      }
      FlushStep(bodies, current, Pack(pieces[i + 1..], pieces[i], maxChars));
      if current != [] {
        bodies := bodies + [current];
      }
      current := pieces[i];
    }
    if current != [] {
      bodies := bodies + [current];
    }
  }

  method ChunkText(raw: Str, maxCharsOption: Option<int>, overlapCharsOption: Option<int>)
    returns (r: Result<seq<Chunk>, RangeError>)
    ensures r == Chunks(raw,
                        if maxCharsOption.Some? then maxCharsOption.value else DEFAULT_MAX_CHARS,
                        if overlapCharsOption.Some? then overlapCharsOption.value else DEFAULT_OVERLAP_CHARS)
  {
    var maxChars := if maxCharsOption.Some? then maxCharsOption.value else DEFAULT_MAX_CHARS;
    var overlapChars :=
      if overlapCharsOption.Some? then overlapCharsOption.value else DEFAULT_OVERLAP_CHARS;
    if maxChars < MIN_MAX_CHARS {
      return Err(BadMaxChars);
    }
    if overlapChars < 0 || 2 * overlapChars >= maxChars {
      return Err(BadOverlapChars);
    }
    var text := NormalizeText(raw);
    if |text| == 0 {
      EmptyTextHasNoBodies(maxChars);
      return Ok([]);
    }

    var pieces := CollectPieces(text, maxChars);
    var bodies := PackBodies(pieces, maxChars);
    r := Ok(MakeChunks(bodies, overlapChars));
  }

  lemma EmptyTextHasNoBodies(maxChars: nat)
    requires maxChars > 0
    ensures Bodies([], maxChars) == []
  {
    var e: Str := [];
    var ps := ParagraphsFrom(e, 0, 0);
    assert ps == [e];
    assert Trim(ps[0]) == [];
    assert ps[1..] == [];
    assert ParagraphPieces(ps[1..], maxChars) == [];
    assert ParagraphPieces(ps, maxChars) == [];
  }
}
