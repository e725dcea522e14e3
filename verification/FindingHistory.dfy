/** Overlapping, expiring and crashing sweeps: what every destroy and every failed instance rests on. */
module FindingHistory {
  import opened Wrappers
  import opened DatabaseLifecycle
  import opened ReconciliationFindings

  /** What happened to one orphan finding, in order; each entry is a committed transaction. */
  datatype Event =
    | Opened(sweep: SweepId, now: Time, grace: int)
    | SeenAgain(sweep: SweepId)
    | ApprovedBy(person: Person)
    | ClaimedBy(sweep: SweepId, now: Time)
    | Returned
    | Closed

  datatype Presence = Absent | Present

  /** A successful claim: its place in the finding's log, and the instance table it was checked against. */
  datatype Grant = Grant(external: ExternalId, at: nat, now: Time, table: Table)

  /** Where a sweep's cleanup stands: nothing claimed, claimed, destroyed, or not destroyed. */
  datatype Cleanup = Idle | Holding(grant: Grant) | Gone(grant: Grant) | Kept(grant: Grant)

  datatype Destruction = Destruction(sweep: SweepId, grant: Grant)

  /** `cleanups[s]` is the program of sweep `s`; `destroys` lists every destroy call ever sent out. */
  datatype World = World(
    db: Db,
    log: map<ExternalId, seq<Event>>,
    presence: map<InstanceId, seq<Presence>>,
    cleanups: seq<Cleanup>,
    destroys: seq<Destruction>)

  /**
   * The transactions and provider calls of any number of sweeps and people. A sweep that never
   * steps again has crashed or stalled; `TableMoves` is any other change of the instance table.
   */
  datatype Step =
    | Start(now: Time, abandonedBefore: Time)
    | SeeOrphan(sweep: SweepId, external: ExternalId, now: Time, grace: int)
    | SeeMissing(sweep: SweepId, id: InstanceId, seen: Row, now: Time)
    | SeePresent(id: InstanceId)
    | Claim(sweep: SweepId, external: ExternalId, now: Time)
    | CallDestroy(sweep: SweepId, succeeds: bool)
    | Settle(sweep: SweepId)
    | Adopt(external: ExternalId)
    | CloseUnseen(inventory: seq<ExternalId>)
    | Finish(sweep: SweepId, status: SweepStatus)
    | PersonApproves(external: ExternalId, person: Person)
    | TableMoves(table: Table)

  const START := World(Db(map[], [], map[], map[]), map[], map[], [], [])

  function LogOf<K, V>(log: map<K, seq<V>>, k: K): seq<V> {
    if k in log then log[k] else []
  }

  function Note<K, V>(log: map<K, seq<V>>, k: K, e: V): map<K, seq<V>> {
    log[k := LogOf(log, k) + [e]]
  }

  /** Every finding whose status changes to `Resolved` or back to `Approved` gets its entry. */
  function NoteChanges(w: World, orphans: map<ExternalId, Finding>): map<ExternalId, seq<Event>> {
    map external | external in w.log ::
      if external !in w.db.orphans || external !in orphans || w.db.orphans[external].status == orphans[external].status
      then w.log[external]
      else w.log[external] + [if orphans[external].status == Resolved then Closed else Returned]
  }

  function WithOrphans(w: World, db: Db): World {
    w.(db := db, log := NoteChanges(w, db.orphans))
  }

  function StartOn(w: World, now: Time, abandonedBefore: Time): World {
    var (db, started) := BeginSweep(w.db, now, abandonedBefore);
    if started.None? then w else WithOrphans(w, db).(cleanups := w.cleanups + [Idle])
  }

  /** After a destroy the finding is resolved, after a failed one the claim is released. */
  function SettleOn(w: World, sweep: SweepId): World
    requires sweep < |w.cleanups|
  {
    match w.cleanups[sweep]
    case Gone(grant) => WithOrphans(w, ResolveOrphan(w.db, grant.external)).(cleanups := w.cleanups[sweep := Idle])
    case Kept(grant) => WithOrphans(w, ReleaseClaim(w.db, grant.external)).(cleanups := w.cleanups[sweep := Idle])
    case _ => w
  }

  function Apply(w: World, step: Step): World {
    match step
    case Start(now, abandonedBefore) => StartOn(w, now, abandonedBefore)
    case SeeOrphan(sweep, external, now, grace) =>
      if sweep >= |w.cleanups| then w
      else
        var reopens := external !in w.db.orphans || w.db.orphans[external].status == Resolved;
        w.(db := ObserveOrphan(w.db, sweep, external, now, grace),
           log := Note(w.log, external, if reopens then Opened(sweep, now, grace) else SeenAgain(sweep)))
    case SeeMissing(sweep, id, seen, now) =>
      w.(db := ObserveMissing(w.db, sweep, id, seen, now), presence := Note(w.presence, id, Absent))
    case SeePresent(id) =>
      w.(db := ResolveMissing(w.db, id), presence := Note(w.presence, id, Present))
    case Claim(sweep, external, now) =>
      if sweep >= |w.cleanups| || !w.cleanups[sweep].Idle? then w
      else
        var (db, ok) := ClaimCleanup(w.db, sweep, external, now);
        if !ok then w
        else
          var grant := Grant(external, |LogOf(w.log, external)|, now, w.db.table);
          w.(db := db, log := Note(w.log, external, ClaimedBy(sweep, now)),
             cleanups := w.cleanups[sweep := Holding(grant)])
    case CallDestroy(sweep, succeeds) =>
      if sweep >= |w.cleanups| || !w.cleanups[sweep].Holding? then w
      else
        var grant := w.cleanups[sweep].grant;
        w.(destroys := w.destroys + [Destruction(sweep, grant)],
           cleanups := w.cleanups[sweep := if succeeds then Gone(grant) else Kept(grant)])
    case Settle(sweep) => if sweep < |w.cleanups| then SettleOn(w, sweep) else w
    case Adopt(external) => WithOrphans(w, ResolveOrphan(w.db, external))
    case CloseUnseen(seen) => WithOrphans(w, ResolveUnseen(w.db, seen))
    case Finish(sweep, status) => w.(db := EndSweep(w.db, sweep, status))
    case PersonApproves(external, person) =>
      var (db, _) := Approve(w.db, external, person);
      if db == w.db then w else w.(db := db, log := Note(w.log, external, ApprovedBy(person)))
    case TableMoves(table) => w.(db := w.db.(table := table))
  }

  function Run(steps: seq<Step>): World {
    if steps == [] then START
    else Apply(Run(steps[..|steps| - 1]), steps[|steps| - 1])
  }

  // ---- What a claim must rest on ----

  predicate Quiet(log: seq<Event>, from: nat) {
    forall i :: from <= i < |log| ==> !log[i].Opened? && !log[i].Closed?
  }

  predicate SeenBetween(log: seq<Event>, from: nat, to: nat) {
    to <= |log| && exists s :: from < s < to && log[s].SeenAgain?
  }

  /** Opened at `o`, observed again, then approved by a person at `a`. */
  predicate ApprovedAt(log: seq<Event>, o: nat, a: nat) {
    o < a < |log| && log[a].ApprovedBy? && SeenBetween(log, o, a)
  }

  predicate ObservedBy(log: seq<Event>, j: nat, sweep: SweepId) {
    && j < |log|
    && ((log[j].Opened? && log[j].sweep == sweep) || (log[j].SeenAgain? && log[j].sweep == sweep))
    && forall i :: j < i < |log| ==> !log[i].Opened? && !log[i].SeenAgain?
  }

  /**
   * The finding's present episode: opened at `o`, neither closed nor reopened since, observed
   * again and then approved by a person at `a`, and last observed at `j` by `sweep`.
   */
  predicate Episode(log: seq<Event>, sweep: SweepId, now: Time, o: nat, a: nat, j: nat) {
    && o < |log| && log[o].Opened? && Quiet(log, o + 1)
    && ApprovedAt(log, o, a)
    && log[o].now + log[o].grace <= now
    && ObservedBy(log, j, sweep)
  }

  /** Entry `n` is a claim, and what precedes it gives that sweep the authority to clean up. */
  ghost predicate Authorised(log: seq<Event>, n: nat) {
    && n < |log| && log[n].ClaimedBy?
    && exists o, a, j :: Episode(log[..n], log[n].sweep, log[n].now, o, a, j)
  }

  ghost predicate ClaimsAuthorised(log: seq<Event>) {
    forall n :: 0 <= n < |log| && log[n].ClaimedBy? ==> Authorised(log, n)
  }

  // ---- The invariant ----

  function ObservationsSince(log: seq<Event>): nat {
    if log == [] then 0
    else
      var rest := log[..|log| - 1];
      match log[|log| - 1]
      case Opened(_, _, _) => 1
      case SeenAgain(_) => ObservationsSince(rest) + 1
      case _ => ObservationsSince(rest)
  }

  ghost predicate Spell(f: Finding, log: seq<Event>, o: nat) {
    && o < |log| && log[o].Opened? && Quiet(log, o + 1)
    && f.cleanupAfter == Some(log[o].now + log[o].grace)
    && (f.count >= 2 ==> SeenBetween(log, o, |log|))
    && (f.status in {Approved, Cleaning} ==> exists a :: ApprovedAt(log, o, a))
  }

  ghost predicate FindingFits(f: Finding, log: seq<Event>) {
    && f.count == ObservationsSince(log)
    && (exists j :: ObservedBy(log, j, f.sweep))
    && (f.status != Resolved ==> exists o :: Spell(f, log, o))
    && ClaimsAuthorised(log)
  }

  ghost predicate FindingsFit(orphans: map<ExternalId, Finding>, log: map<ExternalId, seq<Event>>) {
    orphans.Keys == log.Keys && forall external :: external in orphans ==> FindingFits(orphans[external], log[external])
  }

  /** The claim a sweep acts on is in the log, under that sweep's name, and nobody tracked the resource then. */
  predicate GrantFits(log: map<ExternalId, seq<Event>>, sweep: SweepId, grant: Grant) {
    && grant.external in log && grant.at < |log[grant.external]|
    && log[grant.external][grant.at] == ClaimedBy(sweep, grant.now)
    && !LiveTracker(grant.table, grant.external)
  }

  predicate CleanupsFit(log: map<ExternalId, seq<Event>>, cleanups: seq<Cleanup>) {
    forall s :: 0 <= s < |cleanups| && !cleanups[s].Idle? ==> GrantFits(log, s, cleanups[s].grant)
  }

  predicate DestroysFit(log: map<ExternalId, seq<Event>>, destroys: seq<Destruction>) {
    forall d :: 0 <= d < |destroys| ==> GrantFits(log, destroys[d].sweep, destroys[d].grant)
  }

  ghost predicate Consistent(w: World) {
    FindingsFit(w.db.orphans, w.log) && CleanupsFit(w.log, w.cleanups) && DestroysFit(w.log, w.destroys)
  }

  predicate LogsGrow(log: map<ExternalId, seq<Event>>, log': map<ExternalId, seq<Event>>) {
    forall external :: external in log ==> external in log' && log[external] <= log'[external]
  }

  // ---- One entry at a time ----

  lemma ClaimsStayAuthorised(log: seq<Event>, e: Event)
    requires ClaimsAuthorised(log)
    requires e.ClaimedBy? ==> Authorised(log + [e], |log|)
    ensures ClaimsAuthorised(log + [e])
  {
    var next := log + [e];
    forall n | 0 <= n < |next| && next[n].ClaimedBy?
      ensures Authorised(next, n)
    {
      if n < |log| {
        assert Authorised(log, n);
        assert next[..n] == log[..n];
      }
    }
  }

  /** An entry that neither opens nor closes keeps the episode going. */
  lemma SpellGoesOn(f: Finding, f': Finding, log: seq<Event>, e: Event, o: nat)
    requires Spell(f, log, o) && !e.Opened? && !e.Closed?
    requires f'.cleanupAfter == f.cleanupAfter
    requires f'.count >= 2 ==> f.count >= 2 || e.SeenAgain?
    requires f'.status in {Approved, Cleaning} ==> f.status in {Approved, Cleaning} || (e.ApprovedBy? && f.count >= 2)
    ensures Spell(f', log + [e], o)
  {
    var next := log + [e];
    if f'.count >= 2 {
      if f.count >= 2 {
        var s :| o < s < |log| && log[s].SeenAgain?;
        assert next[s].SeenAgain?;
      } else {
        assert next[|log|].SeenAgain?;
      }
    }
    if f'.status in {Approved, Cleaning} {
      if f.status in {Approved, Cleaning} {
        var a: nat :| ApprovedAt(log, o, a);
        var s :| o < s < a && log[s].SeenAgain?;
        assert next[s].SeenAgain?;
        assert ApprovedAt(next, o, a);
      } else {
        var s :| o < s < |log| && log[s].SeenAgain?;
        assert next[s].SeenAgain?;
        assert ApprovedAt(next, o, |log|);
      }
    }
  }

  lemma OpenFits(log: seq<Event>, sweep: SweepId, now: Time, grace: int)
    requires ClaimsAuthorised(log)
    ensures FindingFits(Finding(Open, sweep, 1, now, Some(now + grace), None), log + [Opened(sweep, now, grace)])
  {
    var next := log + [Opened(sweep, now, grace)];
    ClaimsStayAuthorised(log, Opened(sweep, now, grace));
    assert ObservedBy(next, |log|, sweep);
    assert Spell(Finding(Open, sweep, 1, now, Some(now + grace), None), next, |log|);
  }

  /** Every other entry, given that it moves the row as its transaction does. */
  lemma EntryFits(f: Finding, f': Finding, log: seq<Event>, e: Event)
    requires FindingFits(f, log) && f.status != Resolved && !e.Opened?
    requires f'.cleanupAfter == f.cleanupAfter
    requires f'.count == f.count + if e.SeenAgain? then 1 else 0
    requires f'.sweep == if e.SeenAgain? then e.sweep else f.sweep
    requires e.Closed? ==> f'.status == Resolved
    requires f'.status in {Approved, Cleaning} ==> f.status in {Approved, Cleaning} || (e.ApprovedBy? && f.count >= 2)
    requires e.ClaimedBy? ==> Authorised(log + [e], |log|)
    ensures FindingFits(f', log + [e])
  {
    var next := log + [e];
    assert next[..|log|] == log;
    var o: nat :| Spell(f, log, o);
    var j: nat :| ObservedBy(log, j, f.sweep);
    if e.SeenAgain? {
      assert ObservedBy(next, |log|, e.sweep);
      if f'.count >= 2 {
        assert next[|log|].SeenAgain?;
      }
    } else {
      assert ObservedBy(next, j, f.sweep);
    }
    ClaimsStayAuthorised(log, e);
    if !e.Closed? {
      SpellGoesOn(f, f', log, e, o);
    }
  }

  /** The claim's own guard is what makes it authorised. */
  lemma ClaimIsAuthorised(f: Finding, log: seq<Event>, sweep: SweepId, now: Time)
    requires FindingFits(f, log)
    requires f.sweep == sweep && f.status == Approved && f.cleanupAfter.Some? && f.cleanupAfter.value <= now
    ensures Authorised(log + [ClaimedBy(sweep, now)], |log|)
  {
    var next := log + [ClaimedBy(sweep, now)];
    assert next[..|log|] == log;
    var o: nat :| Spell(f, log, o);
    var a: nat :| ApprovedAt(log, o, a);
    var j: nat :| ObservedBy(log, j, f.sweep);
    assert Episode(next[..|log|], sweep, now, o, a, j);
  }
}
