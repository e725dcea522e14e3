/** Every destroy is authorised, every missing instance was missing twice in a row. */
module FindingLaws {
  import opened Wrappers
  import opened DatabaseLifecycle
  import opened ReconciliationFindings
  import opened FindingHistory

  type Logs = map<ExternalId, seq<Event>>

  lemma GrantsStillFit(w: World, log': Logs)
    requires CleanupsFit(w.log, w.cleanups) && DestroysFit(w.log, w.destroys) && LogsGrow(w.log, log')
    ensures CleanupsFit(log', w.cleanups) && DestroysFit(log', w.destroys)
  {
  }

  lemma OneFindingFits(orphans: map<ExternalId, Finding>, log: Logs, external: ExternalId, f: Finding, l: seq<Event>)
    requires FindingsFit(orphans, log) && FindingFits(f, l)
    ensures FindingsFit(orphans[external := f], log[external := l])
  {
  }

  /** Releasing, requeueing and resolving only touch the status. */
  predicate StatusMove(f: Finding, f': Finding) {
    || f' == f
    || (f.status != Resolved && f' == f.(status := Resolved))
    || (f.status == Cleaning && f' == f.(status := Approved))
  }

  predicate StatusMoves(orphans: map<ExternalId, Finding>, orphans': map<ExternalId, Finding>) {
    && orphans'.Keys == orphans.Keys
    && forall external :: external in orphans ==> StatusMove(orphans[external], orphans'[external])
  }

  lemma StatusMovesFit(w: World, orphans: map<ExternalId, Finding>)
    requires FindingsFit(w.db.orphans, w.log) && StatusMoves(w.db.orphans, orphans)
    ensures FindingsFit(orphans, NoteChanges(w, orphans)) && LogsGrow(w.log, NoteChanges(w, orphans))
  {
    forall external | external in orphans
      ensures FindingFits(orphans[external], NoteChanges(w, orphans)[external])
    {
      var f, f', log := w.db.orphans[external], orphans[external], w.log[external];
      assert StatusMove(f, f') && FindingFits(f, log);
      if f'.status != f.status {
        EntryFits(f, f', log, if f'.status == Resolved then Closed else Returned);
      }
    }
  }

  lemma WithOrphansKeeps(w: World, db: Db)
    requires Consistent(w) && StatusMoves(w.db.orphans, db.orphans)
    ensures Consistent(WithOrphans(w, db)) && LogsGrow(w.log, WithOrphans(w, db).log)
  {
    StatusMovesFit(w, db.orphans);
    GrantsStillFit(w, NoteChanges(w, db.orphans));
  }

  /** One finding moves and its entry is noted: everything else still fits. */
  lemma NoteKeeps(w: World, external: ExternalId, f: Finding, e: Event)
    requires Consistent(w) && FindingFits(f, LogOf(w.log, external) + [e])
    ensures FindingsFit(w.db.orphans[external := f], Note(w.log, external, e))
    ensures LogsGrow(w.log, Note(w.log, external, e))
    ensures CleanupsFit(Note(w.log, external, e), w.cleanups) && DestroysFit(Note(w.log, external, e), w.destroys)
  {
    OneFindingFits(w.db.orphans, w.log, external, f, LogOf(w.log, external) + [e]);
    GrantsStillFit(w, Note(w.log, external, e));
  }

  lemma CleanupUpdateFits(log: Logs, cleanups: seq<Cleanup>, sweep: SweepId, c: Cleanup)
    requires CleanupsFit(log, cleanups) && sweep < |cleanups|
    requires !c.Idle? ==> GrantFits(log, sweep, c.grant)
    ensures CleanupsFit(log, cleanups[sweep := c])
  {
  }

  lemma SeenOrphanFits(w: World, sweep: SweepId, external: ExternalId, now: Time, grace: int)
    requires Consistent(w)
    ensures var reopens := external !in w.db.orphans || w.db.orphans[external].status == Resolved;
      FindingFits(Observe(Lookup(w.db.orphans, external), sweep, now, Some(now + grace)),
                  LogOf(w.log, external) + [if reopens then Opened(sweep, now, grace) else SeenAgain(sweep)])
  {
    var log := LogOf(w.log, external);
    var f := Observe(Lookup(w.db.orphans, external), sweep, now, Some(now + grace));
    if external !in w.db.orphans || w.db.orphans[external].status == Resolved {
      assert external in w.db.orphans ==> FindingFits(w.db.orphans[external], log);
      OpenFits(log, sweep, now, grace);
    } else {
      EntryFits(w.db.orphans[external], f, log, SeenAgain(sweep));
    }
  }

  lemma SeeOrphanKeeps(w: World, sweep: SweepId, external: ExternalId, now: Time, grace: int)
    requires Consistent(w)
    ensures Consistent(Apply(w, SeeOrphan(sweep, external, now, grace)))
    ensures LogsGrow(w.log, Apply(w, SeeOrphan(sweep, external, now, grace)).log)
  {
    if sweep < |w.cleanups| {
      var reopens := external !in w.db.orphans || w.db.orphans[external].status == Resolved;
      SeenOrphanFits(w, sweep, external, now, grace);
      NoteKeeps(w, external, Observe(Lookup(w.db.orphans, external), sweep, now, Some(now + grace)),
                if reopens then Opened(sweep, now, grace) else SeenAgain(sweep));
    }
  }

  lemma ClaimKeeps(w: World, sweep: SweepId, external: ExternalId, now: Time)
    requires Consistent(w)
    ensures Consistent(Apply(w, Claim(sweep, external, now)))
    ensures LogsGrow(w.log, Apply(w, Claim(sweep, external, now)).log)
  {
    if sweep < |w.cleanups| && w.cleanups[sweep].Idle? && Claimable(w.db, sweep, external, now) {
      var f, log := w.db.orphans[external], w.log[external];
      var grant := Grant(external, |log|, now, w.db.table);
      ClaimFits(w, sweep, external, now);
      NoteKeeps(w, external, f.(status := Cleaning), ClaimedBy(sweep, now));
      CleanupUpdateFits(Note(w.log, external, ClaimedBy(sweep, now)), w.cleanups, sweep, Holding(grant));
    }
  }

  lemma ClaimFits(w: World, sweep: SweepId, external: ExternalId, now: Time)
    requires Consistent(w) && Claimable(w.db, sweep, external, now)
    ensures FindingFits(w.db.orphans[external].(status := Cleaning), LogOf(w.log, external) + [ClaimedBy(sweep, now)])
  {
    var f, log := w.db.orphans[external], w.log[external];
    assert FindingFits(f, log);
    ClaimIsAuthorised(f, log, sweep, now);
    EntryFits(f, f.(status := Cleaning), log, ClaimedBy(sweep, now));
  }

  lemma ApproveKeeps(w: World, external: ExternalId, person: Person)
    requires Consistent(w)
    ensures Consistent(Apply(w, PersonApproves(external, person)))
    ensures LogsGrow(w.log, Apply(w, PersonApproves(external, person)).log)
  {
    var next := Apply(w, PersonApproves(external, person));
    if next != w {
      var f := next.db.orphans[external];
      EntryFits(w.db.orphans[external], f, w.log[external], ApprovedBy(person));
      NoteKeeps(w, external, f, ApprovedBy(person));
    }
  }

  lemma CloseIsStatusMove(f: Finding)
    ensures StatusMove(f, Close(f))
  {
  }

  lemma BeginMoves(db: Db, now: Time, abandonedBefore: Time)
    ensures StatusMoves(db.orphans, BeginSweep(db, now, abandonedBefore).0.orphans)
  {
  }

  lemma StartedFits(w: World, db: Db)
    requires Consistent(w) && StatusMoves(w.db.orphans, db.orphans)
    ensures Consistent(WithOrphans(w, db).(cleanups := w.cleanups + [Idle]))
    ensures LogsGrow(w.log, WithOrphans(w, db).log)
  {
    WithOrphansKeeps(w, db);
  }

  lemma StartKeeps(w: World, now: Time, abandonedBefore: Time)
    requires Consistent(w)
    ensures Consistent(StartOn(w, now, abandonedBefore))
    ensures LogsGrow(w.log, StartOn(w, now, abandonedBefore).log)
  {
    BeginMoves(w.db, now, abandonedBefore);
    StartedFits(w, BeginSweep(w.db, now, abandonedBefore).0);
  }

  lemma ResolveOrphanMoves(db: Db, external: ExternalId)
    ensures StatusMoves(db.orphans, ResolveOrphan(db, external).orphans)
  {
  }

  lemma ReleaseMoves(db: Db, external: ExternalId)
    ensures StatusMoves(db.orphans, ReleaseClaim(db, external).orphans)
  {
  }

  lemma SettledFits(w: World, sweep: SweepId, db: Db)
    requires Consistent(w) && StatusMoves(w.db.orphans, db.orphans) && sweep < |w.cleanups|
    ensures Consistent(WithOrphans(w, db).(cleanups := w.cleanups[sweep := Idle]))
    ensures LogsGrow(w.log, WithOrphans(w, db).log)
  {
    WithOrphansKeeps(w, db);
    CleanupUpdateFits(WithOrphans(w, db).log, w.cleanups, sweep, Idle);
  }

  lemma GoneKeeps(w: World, sweep: SweepId)
    requires Consistent(w) && sweep < |w.cleanups| && w.cleanups[sweep].Gone?
    ensures Consistent(SettleOn(w, sweep)) && LogsGrow(w.log, SettleOn(w, sweep).log)
  {
    var external := w.cleanups[sweep].grant.external;
    ResolveOrphanMoves(w.db, external);
    SettledFits(w, sweep, ResolveOrphan(w.db, external));
  }

  lemma KeptKeeps(w: World, sweep: SweepId)
    requires Consistent(w) && sweep < |w.cleanups| && w.cleanups[sweep].Kept?
    ensures Consistent(SettleOn(w, sweep)) && LogsGrow(w.log, SettleOn(w, sweep).log)
  {
    var external := w.cleanups[sweep].grant.external;
    ReleaseMoves(w.db, external);
    SettledFits(w, sweep, ReleaseClaim(w.db, external));
  }

  lemma SettleKeeps(w: World, sweep: SweepId)
    requires Consistent(w) && sweep < |w.cleanups|
    ensures Consistent(SettleOn(w, sweep)) && LogsGrow(w.log, SettleOn(w, sweep).log)
  {
    if w.cleanups[sweep].Gone? {
      GoneKeeps(w, sweep);
    } else if w.cleanups[sweep].Kept? {
      KeptKeeps(w, sweep);
    } else {
      assert SettleOn(w, sweep) == w;
    }
  }

  lemma ResolveKeeps(w: World, step: Step)
    requires Consistent(w) && (step.Adopt? || step.CloseUnseen?)
    ensures Consistent(Apply(w, step)) && LogsGrow(w.log, Apply(w, step).log)
  {
    forall external | external in w.db.orphans
      ensures StatusMove(w.db.orphans[external], Close(w.db.orphans[external]))
    {
      CloseIsStatusMove(w.db.orphans[external]);
    }
    if step.Adopt? {
      ResolveOrphanMoves(w.db, step.external);
      WithOrphansKeeps(w, ResolveOrphan(w.db, step.external));
    } else {
      WithOrphansKeeps(w, ResolveUnseen(w.db, step.inventory));
    }
  }

  lemma StepKeepsConsistent(w: World, step: Step)
    requires Consistent(w)
    ensures Consistent(Apply(w, step)) && LogsGrow(w.log, Apply(w, step).log)
  {
    match step
    case Start(now, abandonedBefore) => StartKeeps(w, now, abandonedBefore);
    case SeeOrphan(sweep, external, now, grace) => SeeOrphanKeeps(w, sweep, external, now, grace);
    case Claim(sweep, external, now) => ClaimKeeps(w, sweep, external, now);
    case Settle(sweep) =>
      if sweep < |w.cleanups| {
        SettleKeeps(w, sweep);
      }
    case Adopt(_) => ResolveKeeps(w, step);
    case CloseUnseen(_) => ResolveKeeps(w, step);
    case PersonApproves(external, person) => ApproveKeeps(w, external, person);
    case _ =>
  }

  lemma {:induction false} HistoryConsistent(steps: seq<Step>)
    ensures Consistent(Run(steps))
  {
    if steps != [] {
      var before, last := steps[..|steps| - 1], steps[|steps| - 1];
      HistoryConsistent(before);
      StepKeepsConsistent(Run(before), last);
    }
  }

  // ---- Main results ----

  /**
   * Whatever sweeps overlap, expire or crash, every destroy call follows a claim that the same
   * sweep made. When that claim was made the finding had been opened, observed again, and approved
   * by a person after that, with no closing or reopening since it was opened; the sweep's own
   * observation was the latest; the grace period counted from the opening was over; and no live
   * instance held the resource.
   */
  lemma DestroyIsAuthorised(steps: seq<Step>, d: nat)
    requires d < |Run(steps).destroys|
    ensures var Destruction(sweep, grant) := Run(steps).destroys[d];
      && grant.external in Run(steps).log
      && Authorised(Run(steps).log[grant.external], grant.at)
      && Run(steps).log[grant.external][grant.at] == ClaimedBy(sweep, grant.now)
      && !LiveTracker(grant.table, grant.external)
  {
    HistoryConsistent(steps);
    var w := Run(steps);
    var grant := w.destroys[d].grant;
    assert GrantFits(w.log, w.destroys[d].sweep, grant);
    assert FindingFits(w.db.orphans[grant.external], w.log[grant.external]);
  }

  lemma ApprovalFollowsOpening(log: seq<Event>, c: nat, n: nat) returns (o: nat, a: nat)
    requires c < n < |log| && log[c].Closed? && Authorised(log, n)
    ensures c < o < a < n && log[o].Opened? && log[a].ApprovedBy?
  {
    var before := log[..n];
    assert before[c].Closed?;
    var i: nat, b: nat, j: nat :| Episode(before, log[n].sweep, log[n].now, i, b, j);
    o, a := i, b;
  }

  /** An approval dies with its episode: a claim after a closing rests on a later opening and a later approval. */
  lemma ApprovalNeverSurvivesClosing(steps: seq<Step>, external: ExternalId, c: nat, n: nat) returns (o: nat, a: nat)
    requires external in Run(steps).log
    requires c < n < |Run(steps).log[external]|
    requires Run(steps).log[external][c].Closed? && Run(steps).log[external][n].ClaimedBy?
    ensures c < o < a < n
    ensures Run(steps).log[external][o].Opened? && Run(steps).log[external][a].ApprovedBy?
  {
    HistoryConsistent(steps);
    var log := Run(steps).log[external];
    assert FindingFits(Run(steps).db.orphans[external], log);
    assert Authorised(log, n);
    o, a := ApprovalFollowsOpening(log, c, n);
  }

  /** Every unresolved orphan finding has a cleanup boundary, so an observation never finds it missing. */
  lemma UnresolvedFindingsAreDated(steps: seq<Step>, external: ExternalId)
    requires external in Run(steps).db.orphans && Run(steps).db.orphans[external].status != Resolved
    ensures Run(steps).db.orphans[external].cleanupAfter.Some?
  {
    HistoryConsistent(steps);
    assert FindingFits(Run(steps).db.orphans[external], Run(steps).log[external]);
  }

  // ---- Missing resources ----

  function TrailingAbsences(presence: seq<Presence>): nat {
    if presence == [] || presence[|presence| - 1].Present? then 0
    else 1 + TrailingAbsences(presence[..|presence| - 1])
  }

  /** The row counts exactly the absences since the last time the resource was seen. */
  predicate MissingFits(db: Db, presence: map<InstanceId, seq<Presence>>, id: InstanceId) {
    && (id in db.missing ==> db.missing[id].status in {Open, Resolved})
    && TrailingAbsences(LogOf(presence, id))
       == if id in db.missing && db.missing[id].status == Open then db.missing[id].count else 0
  }

  lemma OtherStepsKeepMissing(w: World, step: Step, id: InstanceId)
    requires MissingFits(w.db, w.presence, id) && !step.SeeMissing? && !step.SeePresent?
    ensures MissingFits(Apply(w, step).db, Apply(w, step).presence, id)
  {
    assert Apply(w, step).presence == w.presence;
  }

  lemma SightingKeepsMissing(w: World, step: Step, id: InstanceId)
    requires MissingFits(w.db, w.presence, id) && (step.SeeMissing? || step.SeePresent?)
    ensures MissingFits(Apply(w, step).db, Apply(w, step).presence, id)
  {
    var presence := LogOf(w.presence, id);
    assert (presence + [Absent])[..|presence|] == presence;
    assert (presence + [Present])[..|presence|] == presence;
  }

  lemma StepKeepsMissing(w: World, step: Step, id: InstanceId)
    requires MissingFits(w.db, w.presence, id)
    ensures MissingFits(Apply(w, step).db, Apply(w, step).presence, id)
  {
    if step.SeeMissing? || step.SeePresent? {
      SightingKeepsMissing(w, step, id);
    } else {
      OtherStepsKeepMissing(w, step, id);
    }
  }

  lemma {:induction false} AbsencesAreCounted(steps: seq<Step>, id: InstanceId)
    ensures MissingFits(Run(steps).db, Run(steps).presence, id)
  {
    if steps != [] {
      AbsencesAreCounted(steps[..|steps| - 1], id);
      StepKeepsMissing(Run(steps[..|steps| - 1]), steps[|steps| - 1], id);
    }
  }

  /**
   * A reconciler fails an instance as missing only when the resource was absent at least twice in
   * a row with no presence in between, the instance was serving when listed, and it has not moved
   * to another version or another kind of status since.
   */
  lemma FailedAsMissingTwice(steps: seq<Step>, sweep: SweepId, id: InstanceId, seen: Row, now: Time)
    requires Apply(Run(steps), SeeMissing(sweep, id, seen, now)).db.table != Run(steps).db.table
    ensures TrailingAbsences(LogOf(Apply(Run(steps), SeeMissing(sweep, id, seen, now)).presence, id)) >= 2
    ensures id in Run(steps).db.table && Run(steps).db.table[id].version == seen.version
    ensures seen.status in {Ready, Active, Suspended} && Run(steps).db.table[id].status in {Ready, Active, Suspended}
    ensures Apply(Run(steps), SeeMissing(sweep, id, seen, now)).db.table
      == Run(steps).db.table[id := Run(steps).db.table[id].(status := Failed, retryable := false)]
  {
    AbsencesAreCounted(steps, id);
    StepKeepsMissing(Run(steps), SeeMissing(sweep, id, seen, now), id);
  }

  /** Conversely the second absence in a row does fail a serving instance that has not moved. */
  lemma SecondAbsenceFails(steps: seq<Step>, sweep: SweepId, id: InstanceId, now: Time)
    requires id in Run(steps).db.table && Run(steps).db.table[id].status in {Ready, Active, Suspended}
    requires TrailingAbsences(LogOf(Run(steps).presence, id)) >= 1
    ensures Apply(Run(steps), SeeMissing(sweep, id, Run(steps).db.table[id], now)).db.table[id].status == Failed
  {
    AbsencesAreCounted(steps, id);
  }
}
