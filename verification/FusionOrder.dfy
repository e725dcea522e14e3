/** What every fusion respects, whatever its lists and weights. */
module FusionOrder {
  import opened Wrappers
  import opened Fusion
  import opened FusionLaws

  // ---- A hit that is nowhere behind another ----

  /** Wherever the second id is ranked, the first one is ranked too, and no later. */
  predicate NoLater(a: Option<nat>, b: Option<nat>) {
    b.Some? ==> a.Some? && a.value <= b.value
  }

  predicate Dominates(lists: Lists, a: Id, b: Id) {
    forall j :: 0 <= j < |lists| ==> NoLater(FirstRank(lists[j], a), FirstRank(lists[j], b))
  }

  lemma RanksDiffer(list: seq<Id>, a: Id, b: Id)
    requires a != b && FirstRank(list, a).Some? && FirstRank(list, b).Some?
    ensures FirstRank(list, a).value != FirstRank(list, b).value
  {
  }

  lemma GainFalls(weight: real, k: real, early: nat, late: nat)
    requires k > 0.0 && weight >= 0.0 && 1 <= early <= late
    ensures Gain(weight, k, early) >= Gain(weight, k, late) >= 0.0
  {
    DivMonotone(weight, k + early as real, k + late as real);
  }

  lemma ShareOrder(list: seq<Id>, a: Id, b: Id, k: real, weight: real)
    requires k > 0.0 && weight >= 0.0 && NoLater(FirstRank(list, a), FirstRank(list, b))
    ensures Share(list, a, k, weight) >= Share(list, b, k, weight)
  {
    if FirstRank(list, b).Some? {
      GainFalls(weight, k, FirstRank(list, a).value, FirstRank(list, b).value);
    } else if FirstRank(list, a).Some? {
      GainFalls(weight, k, FirstRank(list, a).value, FirstRank(list, a).value);
    }
  }

  lemma {:induction false} ScoreOrder(lists: Lists, a: Id, b: Id, k: real, weights: seq<real>, n: nat)
    requires Legal(lists, k, weights) && n <= |lists| && Dominates(lists, a, b)
    ensures ScoreOver(lists, a, k, weights, n) >= ScoreOver(lists, b, k, weights, n)
  {
    if n > 0 {
      ScoreOrder(lists, a, b, k, weights, n - 1);
      ShareOrder(lists[n - 1], a, b, k, weights[n - 1]);
    }
  }

  /** Strictly earlier wherever the second one is ranked. */
  predicate AllEarlier(a: seq<Option<nat>>, b: seq<Option<nat>>) {
    |a| == |b| && forall j :: 0 <= j < |b| && b[j].Some? ==> Earlier(a[j], b[j])
  }

  lemma {:induction false} BestIsEarlier(a: seq<Option<nat>>, b: seq<Option<nat>>)
    requires AllEarlier(a, b)
    ensures Best(b).Some? ==> Earlier(Best(a), Best(b))
  {
    if b != [] {
      assert AllEarlier(a[1..], b[1..]) by {
        assert forall j :: 0 <= j < |b| - 1 ==> a[1..][j] == a[j + 1] && b[1..][j] == b[j + 1];
      }
      BestIsEarlier(a[1..], b[1..]);
      assert b[0].Some? ==> Earlier(a[0], b[0]);
    }
  }

  lemma {:induction false} SomeRankIsBest(ranks: seq<Option<nat>>, j: nat)
    requires j < |ranks| && ranks[j].Some?
    ensures Best(ranks).Some?
  {
    if j > 0 {
      SomeRankIsBest(ranks[1..], j - 1);
    }
  }

  lemma DominatingRanks(lists: Lists, a: Id, b: Id)
    requires a != b && Dominates(lists, a, b) && Ranked(lists, b)
    ensures Earlier(Best(RanksOf(lists, a)), Best(RanksOf(lists, b)))
  {
    var ra, rb := RanksOf(lists, a), RanksOf(lists, b);
    forall j | 0 <= j < |lists| && rb[j].Some?
      ensures Earlier(ra[j], rb[j])
    {
      assert NoLater(FirstRank(lists[j], a), FirstRank(lists[j], b));
      RanksDiffer(lists[j], a, b);
    }
    BestIsEarlier(ra, rb);
    var j :| 0 <= j < |lists| && b in lists[j];
    SomeRankIsBest(rb, j);
  }

  lemma DominatingIsBefore(lists: Lists, a: Id, b: Id, k: real, weights: seq<real>)
    requires Legal(lists, k, weights) && a != b && Dominates(lists, a, b) && Ranked(lists, b)
    ensures Before(HitOf(lists, a, k, weights), HitOf(lists, b, k, weights))
  {
    ScoreOrder(lists, a, b, k, weights, |lists|);
    DominatingRanks(lists, a, b);
  }

  /** No weights can put a hit before one that is ranked no later in every list. */
  lemma DominatingHitIsEarlier(hits: seq<Hit>, lists: Lists, k: real, weights: seq<real>, p: nat, q: nat)
    requires Legal(lists, k, weights) && IsFusion(hits, lists, k, weights)
    requires p < |hits| && q < |hits| && p != q && Dominates(lists, hits[p].id, hits[q].id)
    ensures p < q
  {
    var a, b := hits[p].id, hits[q].id;
    if q < p {
      assert Before(hits[q], hits[p]);
      if a != b {
        DominatingIsBefore(lists, a, b, k, weights);
      }
    }
  }

  // ---- One list ----

  /** Fusing a single list keeps its order and gives the hit of rank r the score weight / (k + r). */
  lemma SingleListIsKept(hits: seq<Hit>, list: seq<Id>, k: real, weight: real)
    requires k > 0.0 && weight >= 0.0 && DistinctIds(list) && IsFusion(hits, [list], k, [weight])
    ensures |hits| == |list|
    ensures forall i :: 0 <= i < |list| ==> hits[i] == Hit(list[i], weight / (k + (i + 1) as real), [Some(i + 1)])
  {
    var expected := seq(|list|, i requires 0 <= i < |list| => HitOf([list], list[i], k, [weight]));
    forall i | 0 <= i < |list|
      ensures expected[i] == Hit(list[i], weight / (k + (i + 1) as real), [Some(i + 1)])
    {
      SingleListHit(list, i, k, weight);
    }
    forall i, j | 0 <= i < j < |list|
      ensures Before(expected[i], expected[j])
    {
      RankAt(list, i);
      RankAt(list, j);
      assert list[j] in [list][0];
      DominatingIsBefore([list], list[i], list[j], k, [weight]);
    }
    EveryRankedIsListed(expected, list, k, weight);
    FusionUnique(hits, expected, [list], k, [weight]);
  }

  lemma EveryRankedIsListed(expected: seq<Hit>, list: seq<Id>, k: real, weight: real)
    requires k > 0.0 && |expected| == |list|
    requires forall i :: 0 <= i < |list| ==> expected[i] == HitOf([list], list[i], k, [weight])
    ensures forall id :: Ranked([list], id) ==> HitOf([list], id, k, [weight]) in expected
    ensures forall i :: 0 <= i < |expected| ==>
      Ranked([list], expected[i].id) && expected[i] == HitOf([list], expected[i].id, k, [weight])
  {
    forall id | Ranked([list], id)
      ensures HitOf([list], id, k, [weight]) in expected
    {
      var l :| 0 <= l < |[list]| && id in [list][l];
      var i :| 0 <= i < |list| && list[i] == id;
      assert expected[i] == HitOf([list], id, k, [weight]);
    }
    forall i | 0 <= i < |expected|
      ensures Ranked([list], expected[i].id)
    {
      assert list[i] in [list][0];
    }
  }

  lemma SingleListHit(list: seq<Id>, i: nat, k: real, weight: real)
    requires k > 0.0 && DistinctIds(list) && i < |list|
    ensures HitOf([list], list[i], k, [weight]) == Hit(list[i], weight / (k + (i + 1) as real), [Some(i + 1)])
  {
    RankAt(list, i);
    assert ScoreOver([list], list[i], k, [weight], 0) == 0.0;
    assert RanksOf([list], list[i]) == [Some(i + 1)];
  }

  // ---- Ties ----

  /** Of two hits that two equal lists rank first, the smaller id comes first, whichever list it is in. */
  lemma TieGoesToSmallerId(hits: seq<Hit>, small: Id, large: Id, k: real, weight: real, swapped: bool)
    requires k > 0.0 && weight >= 0.0 && small < large
    requires IsFusion(hits, if swapped then [[large], [small]] else [[small], [large]], k, [weight, weight])
    ensures |hits| == 2 && hits[0].id == small && hits[1].id == large
  {
    var lists := if swapped then [[large], [small]] else [[small], [large]];
    var weights := [weight, weight];
    var s, l := HitOf(lists, small, k, weights), HitOf(lists, large, k, weights);
    TieScores(lists, small, large, k, weight, swapped);
    BestOfTwo(s.ranks);
    BestOfTwo(l.ranks);
    assert Before(s, l);
    var expected := [s, l];
    assert small in lists[if swapped then 1 else 0] && large in lists[if swapped then 0 else 1];
    forall id | Ranked(lists, id)
      ensures HitOf(lists, id, k, weights) in expected
    {
      var j :| 0 <= j < |lists| && id in lists[j];
    }
    FusionUnique(hits, expected, lists, k, weights);
  }

  lemma TieScores(lists: Lists, small: Id, large: Id, k: real, weight: real, swapped: bool)
    requires k > 0.0 && small != large && lists == if swapped then [[large], [small]] else [[small], [large]]
    ensures ScoreOver(lists, small, k, [weight, weight], 2) == ScoreOver(lists, large, k, [weight, weight], 2)
    ensures RanksOf(lists, small) == if swapped then [None, Some(1)] else [Some(1), None]
    ensures RanksOf(lists, large) == if swapped then [Some(1), None] else [None, Some(1)]
  {
    var weights := [weight, weight];
    forall id | id == small || id == large
      ensures ScoreOver(lists, id, k, weights, 2) == Gain(weight, k, 1)
    {
      assert ScoreOver(lists, id, k, weights, 0) == 0.0;
      assert ScoreOver(lists, id, k, weights, 1) == Share(lists[0], id, k, weight);
      assert ScoreOver(lists, id, k, weights, 2) == Share(lists[0], id, k, weight) + Share(lists[1], id, k, weight);
    }
  }
}
