/** The approval-expiry sweeper: one batch, and the bounded loop over batches. */
module ExpirySweeper {
  import opened Wrappers
  import opened RunRecord
  import opened RunRepository

  const MAX_BATCHES_PER_SWEEP := 10

  type Runs = map<RunId, Run>

  predicate Overdue(runs: Runs, id: RunId, pausedBefore: Time) {
    id in runs && ExpiryCandidate(runs[id], pausedBefore)
  }

  /** The rows the query returns, in the database's order. */
  function Candidates(runs: Runs, order: seq<RunId>, pausedBefore: Time): (r: seq<RunId>)
    ensures forall id :: id in r <==> id in order && Overdue(runs, id, pausedBefore)
  {
    if order == [] then []
    else
      var rest, id := Candidates(runs, order[..|order| - 1], pausedBefore), order[|order| - 1];
      if Overdue(runs, id, pausedBefore) then rest + [id] else rest
  }

  function Batch(runs: Runs, order: seq<RunId>, pausedBefore: Time, limit: nat): seq<RunId> {
    var all := Candidates(runs, order, pausedBefore);
    if |all| <= limit then all else all[..limit]
  }

  predicate Distinct(s: seq<RunId>) {
    forall i, j :: 0 <= i < j < |s| ==> s[i] != s[j]
  }

  lemma {:induction false} CandidatesAreDistinct(runs: Runs, order: seq<RunId>, pausedBefore: Time)
    requires Distinct(order)
    ensures Distinct(Candidates(runs, order, pausedBefore))
  {
    if order != [] {
      CandidatesAreDistinct(runs, order[..|order| - 1], pausedBefore);
      assert order[|order| - 1] !in order[..|order| - 1];
    }
  }

  /** Exactly the runs of `ids` have expired at `now`. */
  ghost predicate ExpiredExactly(before: Runs, after: Runs, ids: seq<RunId>, now: Time) {
    && after.Keys == before.Keys
    && forall id :: id in before ==>
         after[id] == if id in ids then Expire(before[id], before[id].version, now).0 else before[id]
  }

  /** A sweep only ever expires stale runs, and leaves every other run alone. */
  ghost predicate SweptOnly(before: Runs, after: Runs, pausedBefore: Time, now: Time) {
    && after.Keys == before.Keys
    && forall id :: id in before ==>
         || after[id] == before[id]
         || (Overdue(before, id, pausedBefore) && after[id] == Expire(before[id], before[id].version, now).0)
  }

  lemma BatchSweepsOnly(start: Runs, before: Runs, after: Runs, ids: seq<RunId>, pausedBefore: Time, now: Time)
    requires SweptOnly(start, before, pausedBefore, now) && ExpiredExactly(before, after, ids, now)
    requires forall id :: id in ids ==> Overdue(before, id, pausedBefore)
    ensures SweptOnly(start, after, pausedBefore, now)
  {
  }

  /** No run that is still paused has been so since before `pausedBefore`. */
  predicate NoneOverdue(runs: Runs, pausedBefore: Time) {
    forall id :: id in runs && runs[id].status == PAUSED && runs[id].pausedAt.Some? ==>
      runs[id].pausedAt.value >= pausedBefore
  }

  class ApprovalExpirySweeper {
    const repository: PrismaRunRepository
    const ttl: nat
    const batchSize: nat

    constructor (repository: PrismaRunRepository, ttl: nat, batchSize: nat)
      ensures this.repository == repository && this.ttl == ttl && this.batchSize == batchSize
    {
      this.repository, this.ttl, this.batchSize := repository, ttl, batchSize;
    }

    /** One batch: every candidate is swapped on the version it was listed with. */
    method ExpirePausedRuns(order: seq<RunId>, pausedBefore: Time, now: Time) returns (expired: seq<RunId>)
      requires Distinct(order)
      modifies repository
      ensures expired == Batch(old(repository.runs), order, pausedBefore, batchSize)
      ensures ExpiredExactly(old(repository.runs), repository.runs, expired, now)
      ensures forall id :: id in expired ==> Overdue(old(repository.runs), id, pausedBefore)
      ensures |expired| <= batchSize
    {
      var listed := repository.runs;
      var candidates := Batch(listed, order, pausedBefore, batchSize);
      CandidatesAreDistinct(listed, order, pausedBefore);
      forall k | 0 <= k < |candidates|
        ensures Overdue(listed, candidates[k], pausedBefore)
      {
        assert candidates[k] in Candidates(listed, order, pausedBefore);
      }
      expired := [];
      for i := 0 to |candidates|
        invariant expired == candidates[..i]
        invariant ExpiredExactly(listed, repository.runs, candidates[..i], now)
      {
        var id := candidates[i];
        assert Overdue(listed, id, pausedBefore);
        var ok := repository.ExpireRun(id, listed[id].version, now);
        if ok {
          expired := expired + [id];
        }
        assert candidates[..i + 1] == candidates[..i] + [id];
      }
      assert candidates[..|candidates|] == candidates;
    }

    /**
     * `sweepOnce`: batches until one is short, ten at most. A sweep that was not cut short by that
     * bound leaves no stale run behind.
     */
    method SweepOnce(order: seq<RunId>, now: Time) returns (total: nat)
      requires Distinct(order) && forall id :: id in repository.runs ==> id in order
      modifies repository
      ensures SweptOnly(old(repository.runs), repository.runs, now - ttl, now)
      ensures total <= MAX_BATCHES_PER_SWEEP * batchSize
      ensures total < MAX_BATCHES_PER_SWEEP * batchSize ==> NoneOverdue(repository.runs, now - ttl)
    {
      var pausedBefore := now - ttl;
      ghost var start := repository.runs;
      total := 0;
      var batch := 0;
      while batch < MAX_BATCHES_PER_SWEEP
        invariant batch <= MAX_BATCHES_PER_SWEEP && total == batch * batchSize
        invariant SweptOnly(start, repository.runs, pausedBefore, now)
      {
        ghost var before := repository.runs;
        var expired := ExpirePausedRuns(order, pausedBefore, now);
        BatchSweepsOnly(start, before, repository.runs, expired, pausedBefore, now);
        BoundedTotal(batch, |expired|, batchSize);
        total := total + |expired|;
        if |expired| < batchSize {
          ShortBatchLeavesNone(before, repository.runs, order, pausedBefore, now, batchSize);
          return;
        }
        batch := batch + 1;
      }
    }
  }

  lemma BoundedTotal(batch: nat, last: nat, batchSize: nat)
    requires batch < MAX_BATCHES_PER_SWEEP && last <= batchSize
    ensures batch * batchSize + last <= MAX_BATCHES_PER_SWEEP * batchSize
    ensures batch * batchSize + batchSize == (batch + 1) * batchSize
  {
  }

  lemma ShortBatchLeavesNone(before: Runs, after: Runs, order: seq<RunId>, pausedBefore: Time, now: Time, limit: nat)
    requires ExpiredExactly(before, after, Batch(before, order, pausedBefore, limit), now)
    requires |Batch(before, order, pausedBefore, limit)| < limit
    requires forall id :: id in before ==> id in order
    ensures NoneOverdue(after, pausedBefore)
  {
  }
}
