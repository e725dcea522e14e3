/** Weighted reciprocal rank fusion of ranked lists, over exact reals. */
module Fusion {
  import opened Wrappers

  /** A passage id, numbered in the order `localeCompare` gives the ids. */
  type Id = nat

  type Lists = seq<seq<Id>>

  /** Ranks are 1-based, one slot per input list. */
  datatype Hit = Hit(id: Id, score: real, ranks: seq<Option<nat>>)

  datatype Entry = Entry(score: real, ranks: seq<Option<nat>>)

  datatype RangeError = BadK | BadWeights

  const RRF_K: real := 60.0
  const FUSION_K: real := 3.0
  const KEYWORD_WEIGHT: real := 0.05

  // ---- Reference definition ----

  /** The 1-based position of the first occurrence. */
  function FirstRank(list: seq<Id>, id: Id): (r: Option<nat>)
    ensures r.Some? <==> id in list
    ensures r.Some? ==> 1 <= r.value <= |list| && list[r.value - 1] == id
  {
    if list == [] then None
    else if list[0] == id then Some(1)
    else
      match FirstRank(list[1..], id)
      case None => None
      case Some(n) => Some(n + 1)
  }

  lemma {:induction false} FirstRankIsFirst(list: seq<Id>, id: Id, i: nat)
    requires i < |list| && list[i] == id
    ensures FirstRank(list, id).value <= i + 1
  {
    if list[0] != id {
      FirstRankIsFirst(list[1..], id, i - 1);
    }
  }

  predicate Legal(lists: Lists, k: real, weights: seq<real>) {
    k > 0.0 && |weights| == |lists| && forall j :: 0 <= j < |weights| ==> weights[j] >= 0.0
  }

  function Gain(weight: real, k: real, rank: nat): real
    requires k > 0.0
  {
    weight / (k + rank as real)
  }

  /** What one list adds to an id's score. */
  function Share(list: seq<Id>, id: Id, k: real, weight: real): real
    requires k > 0.0
  {
    match FirstRank(list, id)
    case None => 0.0
    case Some(r) => Gain(weight, k, r)
  }

  function ScoreOver(lists: Lists, id: Id, k: real, weights: seq<real>, n: nat): real
    requires k > 0.0 && n <= |lists| == |weights|
  {
    if n == 0 then 0.0
    else ScoreOver(lists, id, k, weights, n - 1) + Share(lists[n - 1], id, k, weights[n - 1])
  }

  function RanksOf(lists: Lists, id: Id): (r: seq<Option<nat>>)
    ensures |r| == |lists|
    ensures forall j :: 0 <= j < |lists| ==> r[j] == FirstRank(lists[j], id)
  {
    seq(|lists|, j requires 0 <= j < |lists| => FirstRank(lists[j], id))
  }

  function EntryOf(lists: Lists, id: Id, k: real, weights: seq<real>): Entry
    requires k > 0.0 && |lists| == |weights|
  {
    Entry(ScoreOver(lists, id, k, weights, |lists|), RanksOf(lists, id))
  }

  function HitOf(lists: Lists, id: Id, k: real, weights: seq<real>): Hit
    requires k > 0.0 && |lists| == |weights|
  {
    var e := EntryOf(lists, id, k, weights);
    Hit(id, e.score, e.ranks)
  }

  ghost predicate Ranked(lists: Lists, id: Id) {
    exists j :: 0 <= j < |lists| && id in lists[j]
  }

  // ---- The order of the result ----

  /** The smallest rank present, or nothing (JavaScript's `Infinity`). */
  function Best(ranks: seq<Option<nat>>): Option<nat> {
    if ranks == [] then None
    else
      var rest := Best(ranks[1..]);
      if ranks[0].None? then rest
      else if rest.None? || ranks[0].value <= rest.value then ranks[0]
      else rest
  }

  predicate Earlier(a: Option<nat>, b: Option<nat>) {
    a.Some? && (b.None? || a.value < b.value)
  }

  /** Higher score first, then earlier best rank, then smaller id. */
  predicate Before(a: Hit, b: Hit) {
    || a.score > b.score
    || (a.score == b.score && Earlier(Best(a.ranks), Best(b.ranks)))
    || (a.score == b.score && Best(a.ranks) == Best(b.ranks) && a.id < b.id)
  }

  predicate Sorted(hits: seq<Hit>) {
    forall i, j :: 0 <= i < j < |hits| ==> Before(hits[i], hits[j])
  }

  /** Every ranked id exactly once, with its reference score and ranks, in order. */
  ghost predicate IsFusion(hits: seq<Hit>, lists: Lists, k: real, weights: seq<real>)
    requires k > 0.0 && |lists| == |weights|
  {
    && Sorted(hits)
    && (forall i :: 0 <= i < |hits| ==>
          Ranked(lists, hits[i].id) && hits[i] == HitOf(lists, hits[i].id, k, weights))
    && (forall id :: Ranked(lists, id) ==> HitOf(lists, id, k, weights) in hits)
  }

  // ---- Accumulating the entries ----

  /** Adding one hit at the end of list `j`: what changes in the reference entries. */
  lemma {:induction false} ScoreAfterAppend(lists: Lists, j: nat, hit: Id, id: Id, k: real, weights: seq<real>, n: nat)
    requires k > 0.0 && j < |lists| == |weights| && n <= |lists|
    ensures var longer := lists[j := lists[j] + [hit]];
      ScoreOver(longer, id, k, weights, n) ==
        ScoreOver(lists, id, k, weights, n)
        + if j < n && id == hit && hit !in lists[j]
          then Gain(weights[j], k, |lists[j]| + 1) else 0.0
  {
    if n > 0 {
      ScoreAfterAppend(lists, j, hit, id, k, weights, n - 1);
      if n - 1 == j {
        FirstRankAppend(lists[j], hit, id);
      }
    }
  }

  lemma {:induction false} FirstRankAppend(list: seq<Id>, hit: Id, id: Id)
    ensures FirstRank(list + [hit], id) ==
      if id in list then FirstRank(list, id)
      else if id == hit then Some(|list| + 1) else None
  {
    if list == [] {
      assert list + [hit] == [hit];
    } else {
      assert (list + [hit])[1..] == list[1..] + [hit];
      FirstRankAppend(list[1..], hit, id);
    }
  }

  function Unread(lists: Lists): (r: Lists)
    ensures |r| == |lists|
  {
    seq(|lists|, l => [])
  }

  /** `order` lists the map's keys once each; they are the ids ranked so far. */
  ghost predicate Keyed(keys: set<Id>, order: seq<Id>, lists: Lists) {
    && (forall id :: id in keys <==> Ranked(lists, id))
    && (forall id :: id in order <==> id in keys)
    && (forall a, b :: 0 <= a < b < |order| ==> order[a] != order[b])
  }

  ghost predicate Scored(byId: map<Id, Entry>, lists: Lists, k: real, weights: seq<real>)
    requires k > 0.0 && |lists| == |weights|
  {
    forall id :: id in byId ==> byId[id] == EntryOf(lists, id, k, weights)
  }

  ghost predicate Accumulated(byId: map<Id, Entry>, order: seq<Id>, lists: Lists, k: real, weights: seq<real>)
    requires k > 0.0 && |lists| == |weights|
  {
    Keyed(byId.Keys, order, lists) && Scored(byId, lists, k, weights)
  }

  function NoRanks(n: nat): (r: seq<Option<nat>>)
    ensures |r| == n && forall l :: 0 <= l < n ==> r[l] == None
  {
    seq(n, l => None)
  }

  /** The map entry after one more hit of list `j`. */
  function Bumped(byId: map<Id, Entry>, hit: Id, j: nat, rank: nat, k: real, weights: seq<real>): Entry
    requires k > 0.0 && j < |weights|
    requires hit in byId ==> |byId[hit].ranks| == |weights|
  {
    var entry := if hit in byId then byId[hit] else Entry(0.0, NoRanks(|weights|));
    Entry(entry.score + Gain(weights[j], k, rank), entry.ranks[j := Some(rank)])
  }

  lemma RankedAfterAppend(lists: Lists, j: nat, hit: Id, id: Id)
    requires j < |lists|
    ensures Ranked(lists[j := lists[j] + [hit]], id) <==> Ranked(lists, id) || id == hit
  {
    var longer := lists[j := lists[j] + [hit]];
    assert hit in longer[j];
    if Ranked(lists, id) {
      var l :| 0 <= l < |lists| && id in lists[l];
      assert id in longer[l];
    }
    if Ranked(longer, id) && id != hit {
      var l :| 0 <= l < |longer| && id in longer[l];
      assert id in lists[l];
    }
  }

  lemma EntryAfterAppend(lists: Lists, j: nat, hit: Id, id: Id, k: real, weights: seq<real>)
    requires k > 0.0 && j < |lists| == |weights|
    ensures var e, e' := EntryOf(lists, id, k, weights), EntryOf(lists[j := lists[j] + [hit]], id, k, weights);
      if id == hit && hit !in lists[j]
      then e' == Entry(e.score + Gain(weights[j], k, |lists[j]| + 1), e.ranks[j := Some(|lists[j]| + 1)])
      else e' == e
  {
    ScoreAfterAppend(lists, j, hit, id, k, weights, |lists|);
    FirstRankAppend(lists[j], hit, id);
    var longer := lists[j := lists[j] + [hit]];
    var target := if id == hit && hit !in lists[j] then RanksOf(lists, id)[j := Some(|lists[j]| + 1)]
                  else RanksOf(lists, id);
    assert RanksOf(longer, id) == target;
  }

  lemma {:induction false} UnrankedEntry(lists: Lists, id: Id, k: real, weights: seq<real>, n: nat)
    requires k > 0.0 && n <= |lists| == |weights| && !Ranked(lists, id)
    ensures ScoreOver(lists, id, k, weights, n) == 0.0
    ensures RanksOf(lists, id) == NoRanks(|lists|)
  {
    if n > 0 {
      UnrankedEntry(lists, id, k, weights, n - 1);
      assert id !in lists[n - 1];
    }
    forall l | 0 <= l < |lists|
      ensures RanksOf(lists, id)[l] == None
    {
      assert id !in lists[l];
    }
  }

  /** A duplicate within one list changes nothing. */
  lemma AccumulateDuplicate(byId: map<Id, Entry>, order: seq<Id>, lists: Lists, k: real, weights: seq<real>, j: nat, hit: Id)
    requires k > 0.0 && j < |lists| == |weights|
    requires Accumulated(byId, order, lists, k, weights) && hit in lists[j]
    ensures Accumulated(byId, order, lists[j := lists[j] + [hit]], k, weights)
  {
    forall id
      ensures Ranked(lists[j := lists[j] + [hit]], id) <==> Ranked(lists, id)
      ensures EntryOf(lists[j := lists[j] + [hit]], id, k, weights) == EntryOf(lists, id, k, weights)
    {
      RankedAfterAppend(lists, j, hit, id);
      assert Ranked(lists, hit);
      EntryAfterAppend(lists, j, hit, id, k, weights);
    }
  }

  lemma KeyedNew(keys: set<Id>, order: seq<Id>, lists: Lists, j: nat, hit: Id)
    requires j < |lists| && Keyed(keys, order, lists)
    ensures Keyed(keys + {hit}, if hit in keys then order else order + [hit], lists[j := lists[j] + [hit]])
  {
    forall id
      ensures Ranked(lists[j := lists[j] + [hit]], id) <==> Ranked(lists, id) || id == hit
    {
      RankedAfterAppend(lists, j, hit, id);
    }
  }

  lemma ScoredNew(byId: map<Id, Entry>, lists: Lists, k: real, weights: seq<real>, j: nat, hit: Id)
    requires k > 0.0 && j < |lists| == |weights| && hit !in lists[j]
    requires Scored(byId, lists, k, weights) && (hit !in byId ==> !Ranked(lists, hit))
    ensures Scored(byId[hit := Bumped(byId, hit, j, |lists[j]| + 1, k, weights)],
                   lists[j := lists[j] + [hit]], k, weights)
  {
    var longer := lists[j := lists[j] + [hit]];
    var after := byId[hit := Bumped(byId, hit, j, |lists[j]| + 1, k, weights)];
    forall id | id in after
      ensures after[id] == EntryOf(longer, id, k, weights)
    {
      EntryAfterAppend(lists, j, hit, id, k, weights);
      if id == hit && hit !in byId {
        UnrankedEntry(lists, hit, k, weights, |lists|);
      }
    }
  }

  lemma AccumulateNew(byId: map<Id, Entry>, order: seq<Id>, lists: Lists, k: real, weights: seq<real>, j: nat, hit: Id)
    requires k > 0.0 && j < |lists| == |weights|
    requires Accumulated(byId, order, lists, k, weights) && hit !in lists[j]
    ensures Accumulated(byId[hit := Bumped(byId, hit, j, |lists[j]| + 1, k, weights)],
                        if hit in byId then order else order + [hit],
                        lists[j := lists[j] + [hit]], k, weights)
  {
    KeyedNew(byId.Keys, order, lists, j, hit);
    ScoredNew(byId, lists, k, weights, j, hit);
    var entry := Bumped(byId, hit, j, |lists[j]| + 1, k, weights);
    assert byId[hit := entry].Keys == byId.Keys + {hit};
  }

  method Accumulate(lists: Lists, k: real, weights: seq<real>)
    returns (byId: map<Id, Entry>, order: seq<Id>)
    requires Legal(lists, k, weights)
    ensures Accumulated(byId, order, lists, k, weights)
  {
    byId, order := map[], [];
    ghost var read := Unread(lists);
    for j := 0 to |lists|
      invariant |read| == |lists|
      invariant forall l :: 0 <= l < |lists| ==> read[l] == if l < j then lists[l] else []
      invariant Accumulated(byId, order, read, k, weights)
    {
      var list := lists[j];
      assert read[j := list[..0]] == read;
      byId, order := AccumulateList(list, j, byId, order, k, weights, read);
      read := read[j := list];
    }
    assert read == lists;
  }

  /** One pass of the inner loop on the entries: a duplicate is skipped. */
  lemma AccumulateStep(byId: map<Id, Entry>, order: seq<Id>, lists: Lists, k: real, weights: seq<real>,
                       j: nat, list: seq<Id>, i: nat)
    requires k > 0.0 && j < |lists| == |weights| && i < |list|
    requires Accumulated(byId, order, lists[j := list[..i]], k, weights)
    ensures var hit := list[i];
      var dup := hit in list[..i];
      Accumulated(if dup then byId else byId[hit := Bumped(byId, hit, j, i + 1, k, weights)],
                  if dup || hit in byId then order else order + [hit],
                  lists[j := list[..i + 1]], k, weights)
  {
    var read := lists[j := list[..i]];
    var longer := read[j := read[j] + [list[i]]];
    assert list[..i + 1] == list[..i] + [list[i]];
    assert longer == lists[j := list[..i + 1]];
    if list[i] in list[..i] {
      AccumulateDuplicate(byId, order, read, k, weights, j, list[i]);
    } else {
      AccumulateNew(byId, order, read, k, weights, j, list[i]);
    }
  }

  lemma PrefixGrows(list: seq<Id>, i: nat)
    requires i < |list|
    ensures forall id :: id in list[..i + 1] <==> id in list[..i] || id == list[i]
  {
  }

  /** The inner loop: one list, read hit by hit. */
  method AccumulateList(list: seq<Id>, j: nat, byId0: map<Id, Entry>, order0: seq<Id>, k: real,
                        weights: seq<real>, ghost lists: Lists)
    returns (byId: map<Id, Entry>, order: seq<Id>)
    requires k > 0.0 && j < |lists| == |weights|
    requires Accumulated(byId0, order0, lists[j := list[..0]], k, weights)
    ensures Accumulated(byId, order, lists[j := list], k, weights)
  {
    byId, order := byId0, order0;
    var seenInList: set<Id> := {};
    for i := 0 to |list|
      invariant forall id :: id in seenInList <==> id in list[..i]
      invariant Accumulated(byId, order, lists[j := list[..i]], k, weights)
    {
      var hit := list[i];
      AccumulateStep(byId, order, lists, k, weights, j, list, i);
      PrefixGrows(list, i);
      if hit in seenInList {
        continue;
      }
      seenInList := seenInList + {hit};
      var rank := i + 1;
      var entry := Bumped(byId, hit, j, rank, k, weights);
      order := if hit in byId then order else order + [hit];
      byId := byId[hit := entry];
    }
    assert list[..|list|] == list;
  }

  // ---- Sorting ----

  lemma BeforeAsymmetric(a: Hit, b: Hit)
    ensures !(Before(a, b) && Before(b, a))
  {
  }

  method SortHits(hits: seq<Hit>) returns (r: seq<Hit>)
    requires forall i, j :: 0 <= i < j < |hits| ==> hits[i].id != hits[j].id
    ensures Sorted(r)
    ensures multiset(r) == multiset(hits)
  {
    r := [];
    for i := 0 to |hits|
      invariant Sorted(r)
      invariant multiset(r) == multiset(hits[..i])
    {
      PrefixIdsDiffer(hits, i, r);
      assert hits[..i + 1] == hits[..i] + [hits[i]];
      r := Insert(r, hits[i]);
    }
    assert hits[..|hits|] == hits;
  }

  lemma PrefixIdsDiffer(hits: seq<Hit>, i: nat, r: seq<Hit>)
    requires i < |hits| && multiset(r) == multiset(hits[..i])
    requires forall a, b :: 0 <= a < b < |hits| ==> hits[a].id != hits[b].id
    ensures forall h :: h in r ==> h.id != hits[i].id
  {
    forall h | h in r
      ensures h.id != hits[i].id
    {
      assert h in multiset(hits[..i]);
    }
  }

  method Insert(r: seq<Hit>, hit: Hit) returns (r': seq<Hit>)
    requires Sorted(r) && forall h :: h in r ==> h.id != hit.id
    ensures Sorted(r')
    ensures multiset(r') == multiset(r) + multiset{hit}
  {
    var at := 0;
    while at < |r| && Before(r[at], hit)
      invariant at <= |r|
      invariant forall l :: 0 <= l < at ==> Before(r[l], hit)
    {
      at := at + 1;
    }
    InsertSorted(r, hit, at);
    assert r == r[..at] + r[at..];
    r' := r[..at] + [hit] + r[at..];
  }

  lemma InsertSorted(r: seq<Hit>, hit: Hit, at: nat)
    requires Sorted(r) && at <= |r|
    requires forall h :: h in r ==> h.id != hit.id
    requires forall l :: 0 <= l < at ==> Before(r[l], hit)
    requires at < |r| ==> !Before(r[at], hit)
    ensures Sorted(r[..at] + [hit] + r[at..])
  {
  }

  function Default<T>(o: Option<T>, d: T): T {
    if o.Some? then o.value else d
  }

  /** All weights 1 unless given. */
  function WeightsOr(o: Option<seq<real>>, lists: Lists): seq<real> {
    Default(o, seq(|lists|, l => 1.0))
  }

  function Cut(hits: seq<Hit>, limit: Option<nat>): seq<Hit> {
    if limit.Some? && limit.value < |hits| then hits[..limit.value] else hits
  }

  /** The fusion of the lists, cut to the limit. */
  ghost predicate IsCutFusion(hits: seq<Hit>, lists: Lists, k: real, weights: seq<real>, limit: Option<nat>)
    requires Legal(lists, k, weights)
  {
    exists full :: IsFusion(full, lists, k, weights) && hits == Cut(full, limit)
  }

  method ReciprocalRankFusion(lists: Lists, kOption: Option<real>, limit: Option<nat>, weightsOption: Option<seq<real>>)
    returns (r: Result<seq<Hit>, RangeError>)
    ensures var k, weights := Default(kOption, RRF_K), WeightsOr(weightsOption, lists);
      if k <= 0.0 then r == Err(BadK)
      else if !Legal(lists, k, weights) then r == Err(BadWeights)
      else r.Ok? && IsCutFusion(r.value, lists, k, weights, limit)
  {
    var k := Default(kOption, RRF_K);
    if !(k > 0.0) {
      return Err(BadK);
    }
    var weights := WeightsOr(weightsOption, lists);
    if |weights| != |lists| || exists j :: 0 <= j < |weights| && weights[j] < 0.0 {
      return Err(BadWeights);
    }
    var full := Fuse(lists, k, weights);
    r := Ok(Cut(full, limit));
  }

  method Fuse(lists: Lists, k: real, weights: seq<real>) returns (sorted: seq<Hit>)
    requires Legal(lists, k, weights)
    ensures IsFusion(sorted, lists, k, weights)
  {
    var byId, order := Accumulate(lists, k, weights);
    var fused := seq(|order|, i requires 0 <= i < |order| && order[i] in byId =>
      Hit(order[i], byId[order[i]].score, byId[order[i]].ranks));
    forall i | 0 <= i < |fused|
      ensures fused[i] == HitOf(lists, order[i], k, weights) && Ranked(lists, order[i])
    {
      assert order[i] in byId;
    }
    sorted := SortHits(fused);
    forall id | Ranked(lists, id)
      ensures exists i :: 0 <= i < |fused| && fused[i].id == id
    {
      assert id in order;
      var i :| 0 <= i < |order| && order[i] == id;
      assert fused[i].id == id;
    }
    SortedIsFusion(sorted, fused, lists, k, weights);
  }

  lemma SortedIsFusion(sorted: seq<Hit>, fused: seq<Hit>, lists: Lists, k: real, weights: seq<real>)
    requires k > 0.0 && |lists| == |weights|
    requires Sorted(sorted) && multiset(sorted) == multiset(fused)
    requires forall i :: 0 <= i < |fused| ==>
      Ranked(lists, fused[i].id) && fused[i] == HitOf(lists, fused[i].id, k, weights)
    requires forall id :: Ranked(lists, id) ==> exists i :: 0 <= i < |fused| && fused[i].id == id
    ensures IsFusion(sorted, lists, k, weights)
  {
    forall i | 0 <= i < |sorted|
      ensures Ranked(lists, sorted[i].id) && sorted[i] == HitOf(lists, sorted[i].id, k, weights)
    {
      assert sorted[i] in multiset(fused);
    }
    forall id | Ranked(lists, id)
      ensures HitOf(lists, id, k, weights) in sorted
    {
      var i :| 0 <= i < |fused| && fused[i].id == id;
      assert fused[i] in multiset(sorted);
    }
  }
}
