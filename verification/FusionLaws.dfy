/** The order a fused search result is guaranteed to have. */
module FusionLaws {
  import opened Wrappers
  import opened Fusion

  // ---- The specification fixes the result ----

  lemma HasMember(b: seq<Hit>)
    requires b != []
    ensures exists h :: h in b
  {
    assert b[0] in b;
  }

  /** Two sorted sequences holding the same hits are the same sequence. */
  lemma {:induction false} SortedUnique(a: seq<Hit>, b: seq<Hit>)
    requires Sorted(a) && Sorted(b)
    requires forall h :: h in a <==> h in b
    ensures a == b
  {
    if a == [] {
      if b != [] {
        HasMember(b);
      }
    } else {
      assert a[0] in b;
      assert b[0] in a;
      var i :| 0 <= i < |b| && b[i] == a[0];
      var j :| 0 <= j < |a| && a[j] == b[0];
      if i > 0 && j > 0 {
        assert Before(b[0], b[i]) && Before(a[0], a[j]);
        BeforeAsymmetric(a[0], b[0]);
      }
      assert a[0] == b[0];
      forall h
        ensures h in a[1..] <==> h in b[1..]
      {
        TailMembers(a, h);
        TailMembers(b, h);
      }
      SortedUnique(a[1..], b[1..]);
    }
  }

  lemma TailMembers(a: seq<Hit>, h: Hit)
    requires Sorted(a) && a != []
    ensures h in a[1..] <==> h in a && h != a[0]
  {
  }

  /** `IsFusion` leaves no freedom: there is exactly one fused list. */
  lemma FusionUnique(a: seq<Hit>, b: seq<Hit>, lists: Lists, k: real, weights: seq<real>)
    requires k > 0.0 && |lists| == |weights|
    requires IsFusion(a, lists, k, weights) && IsFusion(b, lists, k, weights)
    ensures a == b
  {
    SortedUnique(a, b);
  }

  // ---- Two lists: vector first, keyword second ----

  predicate DistinctIds(list: seq<Id>) {
    forall i, j :: 0 <= i < j < |list| ==> list[i] != list[j]
  }

  lemma {:induction false} RankAt(list: seq<Id>, i: nat)
    requires DistinctIds(list) && i < |list|
    ensures FirstRank(list, list[i]) == Some(i + 1)
  {
  }

  lemma GainBounds(weight: real, k: real, rank: nat)
    requires k > 0.0 && weight >= 0.0 && rank >= 1
    ensures 0.0 <= Gain(weight, k, rank) <= Gain(weight, k, 1)
  {
    var d := k + rank as real;
    DivMonotone(weight, k + 1.0, d);
  }

  lemma DivMonotone(w: real, a: real, b: real)
    requires w >= 0.0 && 0.0 < a <= b
    ensures 0.0 <= w / b <= w / a
  {
  }

  /** The fused score of two lists: the vector share plus a bounded keyword share. */
  lemma TwoListScore(vector: seq<Id>, keyword: seq<Id>, id: Id, k: real, w: real)
    requires k > 0.0 && w >= 0.0
    ensures var score := ScoreOver([vector, keyword], id, k, [1.0, w], 2);
      var share := Share(vector, id, k, 1.0);
      && share <= score <= share + Gain(w, k, 1)
      && (id !in keyword ==> score == share)
  {
    var lists, weights := [vector, keyword], [1.0, w];
    assert ScoreOver(lists, id, k, weights, 0) == 0.0;
    assert ScoreOver(lists, id, k, weights, 1) == Share(vector, id, k, 1.0);
    assert ScoreOver(lists, id, k, weights, 2) == Share(vector, id, k, 1.0) + Share(keyword, id, k, w);
    match FirstRank(keyword, id)
    case None => GainBounds(w, k, 1);
    case Some(r) => GainBounds(w, k, r);
  }

  /** No keyword boost lifts a hit of rank above `rank` past the hit of that rank. */
  ghost predicate GapHolds(k: real, w: real, rank: nat)
    requires k > 0.0
  {
    Gain(1.0, k, rank + 1) + Gain(w, k, 1) < Gain(1.0, k, rank)
  }

  lemma PrefixMembers(list: seq<Id>, n: nat)
    requires n <= |list|
    ensures forall l :: 0 <= l < n ==> list[l] in list[..n]
  {
  }

  lemma VectorHitBeats(vector: seq<Id>, keyword: seq<Id>, i: nat, id: Id, k: real, w: real)
    requires k > 0.0 && w >= 0.0 && DistinctIds(vector) && i < |vector|
    requires GapHolds(k, w, i + 1)
    requires id !in vector[..i + 1]
    ensures Before(HitOf([vector, keyword], vector[i], k, [1.0, w]), HitOf([vector, keyword], id, k, [1.0, w]))
  {
    RankAt(vector, i);
    TwoListScore(vector, keyword, vector[i], k, w);
    TwoListScore(vector, keyword, id, k, w);
    if id in vector {
      var r := FirstRank(vector, id).value;
      PrefixMembers(vector, i + 1);
      DivMonotone(1.0, k + (i + 2) as real, k + r as real);
    } else {
      GainBounds(1.0, k, i + 2);
    }
  }

  /** Once the first `i` results are the first `i` vector hits, the next one follows suit. */
  lemma NextIsVector(hits: seq<Hit>, vector: seq<Id>, keyword: seq<Id>, k: real, w: real, i: nat)
    requires k > 0.0 && w >= 0.0 && DistinctIds(vector) && i < |vector| && GapHolds(k, w, i + 1)
    requires IsFusion(hits, [vector, keyword], k, [1.0, w])
    requires |hits| >= i && forall l :: 0 <= l < i ==> hits[l].id == vector[l]
    ensures |hits| > i && hits[i].id == vector[i]
  {
    var lists, weights := [vector, keyword], [1.0, w];
    var target := HitOf(lists, vector[i], k, weights);
    assert vector[i] in lists[0];
    assert Ranked(lists, vector[i]);
    var p :| 0 <= p < |hits| && hits[p] == target;
    if p > i {
      OthersAreNew(hits, vector, lists, k, weights, i, p);
      VectorHitBeats(vector, keyword, i, hits[i].id, k, w);
      BeforeAsymmetric(hits[i], hits[p]);
    }
  }

  lemma OthersAreNew(hits: seq<Hit>, vector: seq<Id>, lists: Lists, k: real, weights: seq<real>, i: nat, p: nat)
    requires k > 0.0 && |lists| == |weights| && IsFusion(hits, lists, k, weights)
    requires i < p < |hits| && i < |vector| && hits[p].id == vector[i]
    requires forall l :: 0 <= l < i ==> hits[l].id == vector[l]
    ensures hits[i].id !in vector[..i + 1]
  {
  }

  /** While the gap holds for ranks 1..m, the first m results are the first m vector hits, in order. */
  lemma {:induction false} VectorPrefixKept(hits: seq<Hit>, vector: seq<Id>, keyword: seq<Id>, k: real, w: real, m: nat)
    requires k > 0.0 && w >= 0.0 && DistinctIds(vector) && m <= |vector|
    requires forall r :: 1 <= r <= m ==> GapHolds(k, w, r)
    requires IsFusion(hits, [vector, keyword], k, [1.0, w])
    ensures |hits| >= m && forall i :: 0 <= i < m ==> hits[i].id == vector[i]
  {
    for n := 0 to m
      invariant |hits| >= n && forall i :: 0 <= i < n ==> hits[i].id == vector[i]
    {
      assert GapHolds(k, w, n + 1);
      NextIsVector(hits, vector, keyword, k, w, n);
    }
  }

  /** With the production constants the gap holds for exactly the ranks up to five. */
  lemma ProductionGap(rank: nat)
    requires rank >= 1
    ensures GapHolds(FUSION_K, KEYWORD_WEIGHT, rank) <==> rank <= 5
  {
    var a, b := Gain(1.0, FUSION_K, rank), Gain(1.0, FUSION_K, rank + 1);
    var n := rank as real;
    assert a * (3.0 + n) == 1.0 && b * (4.0 + n) == 1.0;
    assert Gain(KEYWORD_WEIGHT, FUSION_K, 1) == 0.0125;
    GapProduct(a, b, n);
    if rank <= 5 {
      assert (3.0 + n) * (4.0 + n) <= 72.0;
    } else {
      assert (3.0 + n) * (4.0 + n) >= 90.0;
    }
  }

  lemma GapProduct(a: real, b: real, n: real)
    requires n >= 1.0 && a * (3.0 + n) == 1.0 && b * (4.0 + n) == 1.0
    ensures (a - b) * ((3.0 + n) * (4.0 + n)) == 1.0
    ensures (3.0 + n) * (4.0 + n) <= 72.0 ==> a - b > 0.0125
    ensures (3.0 + n) * (4.0 + n) >= 90.0 ==> a - b < 0.0125
  {
    var p := (3.0 + n) * (4.0 + n);
    assert a * p == (a * (3.0 + n)) * (4.0 + n) == 4.0 + n;
    assert b * p == (b * (4.0 + n)) * (3.0 + n) == 3.0 + n;
    assert (a - b) * p == a * p - b * p;
    GapFromProduct(a - b, p);
  }

  lemma GapFromProduct(d: real, p: real)
    requires p > 0.0 && d * p == 1.0
    ensures p <= 72.0 ==> d > 0.0125
    ensures p >= 90.0 ==> d < 0.0125
  {
  }

  /** As `searchQuick` fuses: the first five results are the vector search's first five, in order. */
  lemma FirstFiveAreVector(hits: seq<Hit>, vector: seq<Id>, keyword: seq<Id>)
    requires DistinctIds(vector)
    requires IsFusion(hits, [vector, keyword], FUSION_K, [1.0, KEYWORD_WEIGHT])
    ensures var m := if |vector| < 5 then |vector| else 5;
      |hits| >= m && forall i :: 0 <= i < m ==> hits[i].id == vector[i]
  {
    var m := if |vector| < 5 then |vector| else 5;
    forall r | 1 <= r <= m
      ensures GapHolds(FUSION_K, KEYWORD_WEIGHT, r)
    {
      ProductionGap(r);
    }
    VectorPrefixKept(hits, vector, keyword, FUSION_K, KEYWORD_WEIGHT, m);
  }

  /** Five is the limit: one keyword hit lifts the seventh vector hit over the sixth. */
  lemma SixthCanBeOvertaken(vector: seq<Id>)
    requires DistinctIds(vector) && |vector| >= 7
    ensures var lists, weights := [vector, [vector[6]]], [1.0, KEYWORD_WEIGHT];
      Before(HitOf(lists, vector[6], FUSION_K, weights), HitOf(lists, vector[5], FUSION_K, weights))
  {
    var keyword := [vector[6]];
    RankAt(vector, 5);
    RankAt(vector, 6);
    TwoListScore(vector, keyword, vector[5], FUSION_K, KEYWORD_WEIGHT);
    var lists, weights := [vector, keyword], [1.0, KEYWORD_WEIGHT];
    assert ScoreOver(lists, vector[6], FUSION_K, weights, 1) == Share(vector, vector[6], FUSION_K, 1.0);
    assert FirstRank(keyword, vector[6]) == Some(1);
    assert ScoreOver(lists, vector[6], FUSION_K, weights, 2) == Gain(1.0, FUSION_K, 7) + Gain(KEYWORD_WEIGHT, FUSION_K, 1);
  }

  /**
   * Against a vector hit of rank at most 76 a keyword-only hit comes later, whatever its keyword
   * rank.
   */
  lemma KeywordOnlyIsLater(vector: seq<Id>, keyword: seq<Id>, i: nat, id: Id)
    requires DistinctIds(vector) && i < |vector| && i + 1 <= 76
    requires id in keyword && id !in vector
    ensures var lists, weights := [vector, keyword], [1.0, KEYWORD_WEIGHT];
      Before(HitOf(lists, vector[i], FUSION_K, weights), HitOf(lists, id, FUSION_K, weights))
  {
    RankAt(vector, i);
    TwoListScore(vector, keyword, vector[i], FUSION_K, KEYWORD_WEIGHT);
    TwoListScore(vector, keyword, id, FUSION_K, KEYWORD_WEIGHT);
    DivMonotone(1.0, 3.0 + (i + 1) as real, 79.0);
    assert 1.0 / 79.0 > 0.0125;
  }

  /** At rank 77 the scores tie and the keyword hit's rank 1 wins, so 76 cannot be raised. */
  lemma KeywordOnlyWinsAt77(vector: seq<Id>, id: Id)
    requires DistinctIds(vector) && |vector| >= 77 && id !in vector
    ensures var lists, weights := [vector, [id]], [1.0, KEYWORD_WEIGHT];
      Before(HitOf(lists, id, FUSION_K, weights), HitOf(lists, vector[76], FUSION_K, weights))
  {
    var keyword := [id];
    var lists, weights := [vector, keyword], [1.0, KEYWORD_WEIGHT];
    RankAt(vector, 76);
    assert vector[76] in vector;
    TwoListScore(vector, keyword, vector[76], FUSION_K, KEYWORD_WEIGHT);
    assert ScoreOver(lists, id, FUSION_K, weights, 1) == 0.0;
    assert FirstRank(keyword, id) == Some(1);
    assert ScoreOver(lists, id, FUSION_K, weights, 2) == Gain(KEYWORD_WEIGHT, FUSION_K, 1);
    BestOfTwo(RanksOf(lists, id));
    BestOfTwo(RanksOf(lists, vector[76]));
  }

  lemma BestOfTwo(ranks: seq<Option<nat>>)
    requires |ranks| == 2
    ensures ranks[0].None? ==> Best(ranks) == ranks[1]
    ensures ranks[1].None? ==> Best(ranks) == ranks[0]
  {
    assert ranks[1..][1..] == [];
    assert Best(ranks[1..][1..]) == None;
    assert Best(ranks[1..]) == ranks[1];
  }

  /** With at most 76 vector candidates every keyword-only hit follows every vector hit. */
  lemma VectorHitsComeFirst(hits: seq<Hit>, vector: seq<Id>, keyword: seq<Id>, p: nat, q: nat)
    requires DistinctIds(vector) && |vector| <= 76
    requires IsFusion(hits, [vector, keyword], FUSION_K, [1.0, KEYWORD_WEIGHT])
    requires p < |hits| && q < |hits| && hits[p].id in vector && hits[q].id !in vector
    ensures p < q
  {
    var lists, weights := [vector, keyword], [1.0, KEYWORD_WEIGHT];
    var i :| 0 <= i < |vector| && vector[i] == hits[p].id;
    assert Ranked(lists, hits[q].id);
    var l :| 0 <= l < |lists| && hits[q].id in lists[l];
    assert l == 1;
    KeywordOnlyIsLater(vector, keyword, i, hits[q].id);
    if q < p {
      BeforeAsymmetric(hits[p], hits[q]);
    }
  }

  // ---- The search that uses it ----

  datatype SearchError = BadLimits | BadKeywordWeight

  const DEFAULT_LIMIT: int := 8
  const DEFAULT_CANDIDATES: int := 30
  const MAX_CANDIDATES: int := 200

  function Take(list: seq<Id>, n: int): (r: seq<Id>)
    requires n >= 0
    ensures |r| <= n && r <= list
  {
    if |list| > n then list[..n] else list
  }

  /** What a query with its LIMIT returns. */
  function Candidates(list: seq<Id>, requested: int): seq<Id>
    requires requested >= 1
  {
    Take(list, if requested < MAX_CANDIDATES then requested else MAX_CANDIDATES)
  }

  /**
   * The answer starts with the vector search's own first five, whatever the keyword search says, and
   * with at most 76 vector candidates nothing the vector search did not find precedes what it found.
   */
  predicate DefersToVector(hits: seq<Hit>, vector: seq<Id>, limit: nat) {
    && (forall i :: 0 <= i < 5 && i < |vector| && i < limit ==> i < |hits| && hits[i].id == vector[i])
    && (|vector| <= 76 ==>
          forall p, q :: 0 <= p < |hits| && 0 <= q < |hits| && hits[p].id in vector && hits[q].id !in vector ==> p < q)
  }

  lemma CutDefersToVector(hits: seq<Hit>, vector: seq<Id>, keyword: seq<Id>, limit: nat)
    requires DistinctIds(vector)
    requires IsCutFusion(hits, [vector, keyword], FUSION_K, [1.0, KEYWORD_WEIGHT], Some(limit))
    ensures DefersToVector(hits, vector, limit)
  {
    var full :| IsFusion(full, [vector, keyword], FUSION_K, [1.0, KEYWORD_WEIGHT]) && hits == Cut(full, Some(limit));
    FirstFiveAreVector(full, vector, keyword);
    if |vector| <= 76 {
      forall p, q | 0 <= p < |hits| && 0 <= q < |hits| && hits[p].id in vector && hits[q].id !in vector
        ensures p < q
      {
        VectorHitsComeFirst(full, vector, keyword, p, q);
      }
    }
  }

  /**
   * The fusing half of `searchQuick`: `byVector` and `byKeyword` are what the two
   * queries would return without their LIMIT. The answer is the fusion of the two candidate lists
   * cut to the limit, and with the production keyword weight it defers to the vector search.
   */
  method SearchQuick(byVector: seq<Id>, byKeyword: seq<Id>, limitOption: Option<int>, candidatesOption: Option<int>,
                     keywordWeightOption: Option<real>)
    returns (r: Result<seq<Hit>, SearchError>)
    requires DistinctIds(byVector)
    ensures var limit, candidates := Default(limitOption, DEFAULT_LIMIT), Default(candidatesOption, DEFAULT_CANDIDATES);
      var weight := Default(keywordWeightOption, KEYWORD_WEIGHT);
      if limit < 1 || candidates < 1 then r == Err(BadLimits)
      else if weight < 0.0 then r == Err(BadKeywordWeight)
      else
        var vector, keyword := Candidates(byVector, candidates), Candidates(byKeyword, candidates);
        && r.Ok?
        && IsCutFusion(r.value, [vector, keyword], FUSION_K, [1.0, weight], Some(limit))
        && (weight == KEYWORD_WEIGHT ==> DefersToVector(r.value, vector, limit))
  {
    var limit := Default(limitOption, DEFAULT_LIMIT);
    var candidates := Default(candidatesOption, DEFAULT_CANDIDATES);
    if limit < 1 || candidates < 1 {
      return Err(BadLimits);
    }
    var vector, keyword := Candidates(byVector, candidates), Candidates(byKeyword, candidates);
    var weight := Default(keywordWeightOption, KEYWORD_WEIGHT);
    var weights := [1.0, weight];
    assert weights[1] == weight;
    var fused := ReciprocalRankFusion([vector, keyword], Some(FUSION_K), Some(limit), Some(weights));
    if fused.Err? {
      return Err(BadKeywordWeight);
    }
    r := Ok(fused.value);
    if weight == KEYWORD_WEIGHT {
      CutDefersToVector(r.value, vector, keyword, limit);
    }
  }
}
