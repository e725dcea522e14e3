/** Expiry, reminders and purging: what the sweepers rely on, over whole histories. */
module RunSweeps {
  import opened Wrappers
  import opened FileRevisions
  import opened RunRecord
  import opened RunHistory
  import opened RunLaws

  // ---- Times ----

  predicate Timely(w: World) {
    && |w.times| == |w.entries| == w.run.version + 1
    && (forall v :: 0 <= v < |w.times| ==> w.times[v] <= w.clock)
    && (w.run.status == PAUSED ==> w.run.pausedAt.Some? && w.run.pausedAt.value <= w.times[w.run.version])
  }

  /** A pause always interrupts a run that was waiting or running. */
  predicate PausesInterrupt(entries: seq<Entry>) {
    forall v :: 0 <= v < |entries| && StatusOf(entries[v]) == PAUSED ==>
      v > 0 && (StatusOf(entries[v - 1]) == PENDING || StatusOf(entries[v - 1]) == RUNNING)
  }

  /** What a sweeper saw of a paused run is still true of the version it saw. */
  predicate LookFits(w: World, look: Look) {
    && look.version < |w.entries| && look.version < |w.times|
    && (look.kind.ForExpiry? || look.kind.ForReminder? ==>
          && StatusOf(w.entries[look.version]) == PAUSED
          && look.stamp < look.cutoff && look.stamp <= w.times[look.version])
    && (look.kind.ForPurge? ==>
          w.run.version == look.version && w.run.status == CANCELLED && w.entries[look.version].ExpiredEntry?)
  }

  predicate RemindersFit(w: World) {
    && (forall k :: 0 <= k < |w.reminders| ==>
          && w.reminders[k] < |w.entries| && StatusOf(w.entries[w.reminders[k]]) == PAUSED
          && (w.reminders[k] == w.run.version ==> w.run.reminderSentAt.Some?))
    && (forall j, k :: 0 <= j < k < |w.reminders| ==> w.reminders[j] < w.reminders[k])
  }

  predicate PurgeFits(w: World) {
    && (w.run.purgedAt.Some? <==> w.run.redacted)
    && |w.entries| > w.run.version
    && (w.run.redacted ==> w.run.status == CANCELLED && w.entries[w.run.version].ExpiredEntry?)
  }

  predicate Swept(w: World) {
    && Timely(w) && PausesInterrupt(w.entries) && RemindersFit(w) && PurgeFits(w)
    && (forall k :: 0 <= k < |w.looks| ==> LookFits(w, w.looks[k]))
  }

  /** A step that keeps the version keeps the pause and its reminder, or adds a reminder. */
  predicate KeepsPause(run: Run, run': Run) {
    && run'.version == run.version
    && (run'.status == PAUSED ==> run.status == PAUSED && run'.pausedAt == run.pausedAt)
    && (run.status == CANCELLED ==> run'.status == CANCELLED)
    && (run.reminderSentAt.Some? ==> run'.reminderSentAt.Some?)
  }

  lemma KeptVersionFits(w: World, run: Run)
    requires Swept(w) && KeepsPause(w.run, run)
    requires run.purgedAt == w.run.purgedAt && run.redacted == w.run.redacted
    ensures Swept(w.(run := run))
  {
  }

  /** One version up: the new entry needs its stamp, and nothing is purged any more or yet. */
  lemma NewVersionFits(w: World, run: Run, e: Entry)
    requires Swept(w) && Consistent(w) && run.version == w.run.version + 1
    requires w.run.status != CANCELLED
    requires StatusOf(e) == PAUSED ==> w.run.status == PENDING || w.run.status == RUNNING
    requires run.status == PAUSED ==> run.pausedAt.Some? && run.pausedAt.value <= w.clock
    requires run.purgedAt == w.run.purgedAt && run.redacted == w.run.redacted
    ensures Swept(Moved(w, run, e))
  {
  }

  lemma ActionStamps(run: Run, action: Action, at: Time)
    requires ResolveTransition(action, run.status, at).Some?
    ensures var next := TransitionRun(run, run.status, run.version, ResolveTransition(action, run.status, at).value.0).0;
      && run.status != CANCELLED && next.version == run.version + 1
      && next.purgedAt == run.purgedAt && next.redacted == run.redacted
      && (next.status == PAUSED ==> next.pausedAt == Some(at))
      && (StatusOf(ActionEntry(action)) == PAUSED ==> run.status == PENDING || run.status == RUNNING)
  {
  }

  lemma ActKeepsSwept(w: World, action: Action, seenStatus: RunStatus, seenVersion: nat, at: Time)
    requires Swept(w) && Consistent(w)
    ensures Swept(ActOn(w, action, seenStatus, seenVersion, at))
  {
    var transition := ResolveTransition(action, seenStatus, at);
    if at <= w.clock && transition.Some? && w.run.status == seenStatus && w.run.version == seenVersion {
      ActionStamps(w.run, action, at);
      var run := TransitionRun(w.run, seenStatus, seenVersion, transition.value.0).0;
      NewVersionFits(w, run, ActionEntry(action));
    }
  }

  lemma ClaimKeepsSwept(w: World, job: Job, at: Time, restored: map<Agent, Output>, maxRepairs: nat)
    requires Swept(w) && Consistent(w)
    ensures Swept(DeliverOn(w, job, at, restored, maxRepairs))
  {
    var run := Claim(w.run, job, at).0;
    if run.version == w.run.version {
      KeptVersionFits(w, run);
    } else {
      NewVersionFits(w, run, ClaimedEntry);
    }
  }

  predicate StampedPause(run: Run, run': Run, now: Time) {
    run'.version > run.version && run'.status == PAUSED ==> run'.pausedAt == Some(now)
  }

  lemma FrameKeepsVersion(run: Run, run': Run)
    requires Frame(run') == Frame(run)
    ensures run'.version == run.version
  {
  }

  lemma TaskStepsStamp(run: Run, files: seq<Revision>, worker: Worker, agent: Agent, a: Answer)
    ensures StampedPause(run, RunAgentStep(run, files, worker, agent, a).run, a.now)
    ensures StampedPause(run, StartStep(run, files, worker, agent, a).run, a.now)
  {
  }

  lemma ExecuteStamps(run: Run, files: seq<Revision>, worker: Worker, agent: Agent, a: Answer)
    ensures StampedPause(run, ExecuteStep(run, files, worker, agent, a).run, a.now)
  {
    var next := ExecuteStep(run, files, worker, agent, a).run;
    ExecuteMoves(run, files, worker, agent, a, FailedEntry);
    if next != run && Frame(next) == Frame(run) {
      FrameKeepsVersion(run, next);
    }
  }

  /** Gates stamp the pause with the worker's clock. */
  lemma GateStamps(run: Run, files: seq<Revision>, worker: Worker, a: Answer)
    ensures StampedPause(run, Advance(run, files, worker, a).run, a.now)
  {
    match worker.phase
    case AtAgent(agent) => TaskStepsStamp(run, files, worker, agent, a);
    case Prepared(agent) => TaskStepsStamp(run, files, worker, agent, a);
    case Executing(agent) => ExecuteStamps(run, files, worker, agent, a);
    case _ =>
  }

  lemma WorkKeepsSwept(w: World, i: nat, a: Answer)
    requires Swept(w) && Consistent(w) && i < |w.workers| && a.now <= w.clock
    ensures Swept(WorkOn(w, i, a))
  {
    var worker := w.workers[i];
    var run := Advance(w.run, w.files, worker, a).run;
    if Active(w.run, worker.token) {
      ActiveHasNoError(w, worker.token);
    }
    AdvanceMoves(w.run, w.files, worker, a);
    GateStamps(w.run, w.files, worker, a);
    WorkerKeepsFields(w.run, run, worker.token, EntryOf(worker));
    assert run.version > w.run.version ==> run.status == StatusOf(EntryOf(worker));
    LandKeepsSwept(w, i, Advance(w.run, w.files, worker, a), a.now);
  }

  lemma LandKeepsSwept(w: World, i: nat, r: Advanced, now: Time)
    requires Swept(w) && Consistent(w) && i < |w.workers| && now <= w.clock
    requires r.run.purgedAt == w.run.purgedAt && r.run.redacted == w.run.redacted
    requires r.run.version == w.run.version || (r.run.version == w.run.version + 1 && w.run.status == RUNNING)
    requires r.run.version == w.run.version ==> KeepsPause(w.run, r.run)
    requires r.run.version > w.run.version && r.run.status == PAUSED ==> r.run.pausedAt == Some(now)
    ensures Swept(Land(w, i, r))
  {
  }

  lemma WorkerKeepsFields(run: Run, run': Run, token: nat, e: Entry)
    requires WorkerMoves(run, run', token, e)
    ensures run'.purgedAt == run.purgedAt && run'.redacted == run.redacted
    ensures run'.version == run.version || (run'.version == run.version + 1 && run.status == RUNNING)
    ensures run'.version == run.version ==> KeepsPause(run, run')
  {
  }

  lemma ExpireKeepsSwept(w: World, k: nat)
    requires Swept(w) && Consistent(w)
    ensures Swept(Apply(w, ExpireSeen(k)))
  {
    if k < |w.looks| && w.looks[k].kind.ForExpiry? {
      var (run, ok) := Expire(w.run, w.looks[k].version, w.looks[k].now);
      if ok {
        NewVersionFits(w, run, ExpiredEntry);
      }
    }
  }

  lemma LookKeepsSwept(w: World, kind: LookKind, cutoff: Time, at: Time)
    requires Swept(w) && Consistent(w)
    ensures Swept(Apply(w, LookAt(kind, cutoff, at)))
  {
  }

  lemma RemindKeepsSwept(w: World, k: nat)
    requires Swept(w) && Consistent(w)
    ensures Swept(Apply(w, RemindSeen(k)))
  {
    if k < |w.looks| && w.looks[k].kind.ForReminder? {
      var (run, ok) := Remind(w.run, w.looks[k].now);
      if ok {
        KeptVersionFits(w, run);
        forall j | 0 <= j < |w.reminders|
          ensures w.reminders[j] < w.run.version
        {
          assert w.reminders[j] < |w.entries|;
        }
      }
    }
  }

  lemma PurgeKeepsSwept(w: World, k: nat)
    requires Swept(w) && Consistent(w)
    ensures Swept(Apply(w, PurgeSeen(k)))
  {
  }

  lemma TickKeepsSwept(w: World, d: nat)
    requires Swept(w)
    ensures Swept(Apply(w, Tick(d)))
  {
  }

  lemma StepKeepsSwept(w: World, step: Step)
    requires Swept(w) && Consistent(w)
    ensures Swept(Apply(w, step))
  {
    match step
    case Tick(d) => TickKeepsSwept(w, d);
    case Act(action, seenStatus, seenVersion, at) => ActKeepsSwept(w, action, seenStatus, seenVersion, at);
    case Mark(version, at) => KeptVersionFits(w, MarkRunFailed(w.run, version, at));
    case Deliver(job, at, restored, maxRepairs) => ClaimKeepsSwept(w, job, at, restored, maxRepairs);
    case Work(i, a) =>
      if i < |w.workers| && a.now <= w.clock {
        WorkKeepsSwept(w, i, a);
      }
    case LookAt(kind, cutoff, at) => LookKeepsSwept(w, kind, cutoff, at);
    case ExpireSeen(k) => ExpireKeepsSwept(w, k);
    case RemindSeen(k) => RemindKeepsSwept(w, k);
    case PurgeSeen(k) => PurgeKeepsSwept(w, k);
    case OtherEvent => KeptVersionFits(w, Append(w.run, Foreign));
    case Crash(i) => SameRunFits(w, Apply(w, step));
    case UserEdit(_, _, _) => SameRunFits(w, Apply(w, step));
  }

  lemma SameRunFits(w: World, next: World)
    requires Swept(w)
    requires next.run == w.run && next.entries == w.entries && next.times == w.times && next.clock == w.clock
    requires next.looks == w.looks && next.reminders == w.reminders
    ensures Swept(next)
  {
  }

  lemma {:induction false} SweptForever(steps: seq<Step>)
    ensures Swept(RunAll(steps))
  {
    if steps != [] {
      SweptForever(steps[..|steps| - 1]);
      HistoryConsistent(steps[..|steps| - 1]);
      StepKeepsSwept(RunAll(steps[..|steps| - 1]), steps[|steps| - 1]);
    }
  }

  // ---- Main results ----

  /** The step really expires the run. */
  predicate Expires(w: World, k: nat) {
    k < |w.looks| && Apply(w, ExpireSeen(k)).run != w.run
  }

  /** Whenever the clock had reached `since`, up to the last state, the run was PAUSED. */
  ghost predicate PausedSince(steps: seq<Step>, since: Time) {
    forall j :: 0 <= j <= |steps| && RunAll(steps[..j]).clock >= since ==> RunAll(steps[..j]).run.status == PAUSED
  }

  /** While the run is at a version whose entry is a pause, it is PAUSED. */
  lemma PausedAtItsVersion(steps: seq<Step>, j: nat)
    requires j <= |steps| && RunAll(steps[..j]).run.version == RunAll(steps).run.version
    requires RunAll(steps).run.status == PAUSED
    ensures RunAll(steps[..j]).run.status == PAUSED
  {
    VersionsNeverFall(steps, j);
    HistoryConsistent(steps);
    HistoryConsistent(steps[..j]);
  }

  lemma StepTimes(w: World, step: Step)
    requires Consistent(w) && |w.times| == |w.entries|
    ensures w.times <= Apply(w, step).times && w.clock <= Apply(w, step).clock
    ensures Apply(w, step).run.version > w.run.version ==> Apply(w, step).times == w.times + [w.clock]
    ensures Apply(w, step).run.version >= w.run.version
  {
    StepKeepsConsistent(w, step);
    if step.Work? && step.i < |w.workers| && step.answer.now <= w.clock {
      WorkTimes(w, step.i, step.answer);
    }
  }

  lemma WorkTimes(w: World, i: nat, a: Answer)
    requires Consistent(w) && i < |w.workers|
    ensures WorkOn(w, i, a).times == w.times || WorkOn(w, i, a).times == w.times + [w.clock]
    ensures WorkOn(w, i, a).run.version > w.run.version ==> WorkOn(w, i, a).times == w.times + [w.clock]
    ensures WorkOn(w, i, a).clock == w.clock
  {
  }

  /** The state just before a version was committed: the version below it, at the time recorded for it. */
  lemma {:induction false} MomentOfEntry(steps: seq<Step>, v: nat) returns (j: nat)
    requires 0 < v <= RunAll(steps).run.version
    ensures j < |steps| && RunAll(steps[..j]).run.version < v <= RunAll(steps[..j + 1]).run.version
    ensures v < |RunAll(steps).times| && RunAll(steps[..j]).clock == RunAll(steps).times[v]
    decreases |steps|
  {
    var n := |steps| - 1;
    var w := RunAll(steps[..n]);
    HistoryConsistent(steps[..n]);
    HistoryConsistent(steps);
    StepTimes(w, steps[n]);
    assert RunAll(steps) == Apply(w, steps[n]);
    if w.run.version >= v {
      j := MomentOfEntry(steps[..n], v);
      assert steps[..n][..j] == steps[..j] && steps[..n][..j + 1] == steps[..j + 1];
    } else {
      j := n;
      assert steps[..n + 1] == steps;
      OneVersionAtATime(w, steps[n]);
    }
  }

  lemma OneVersionAtATime(w: World, step: Step)
    requires Consistent(w)
    ensures Apply(w, step).run.version <= w.run.version + 1
  {
    StepKeepsConsistent(w, step);
    StepTimes(w, step);
  }

  lemma {:induction false} ClockNeverTurnsBack(steps: seq<Step>, j: nat)
    requires j <= |steps|
    ensures RunAll(steps[..j]).clock <= RunAll(steps).clock
    decreases |steps|
  {
    var n := |steps|;
    if j == n {
      assert steps[..j] == steps;
    } else {
      assert steps[..n - 1][..j] == steps[..j];
      ClockNeverTurnsBack(steps[..n - 1], j);
      HistoryConsistent(steps[..n - 1]);
      StepTimes(RunAll(steps[..n - 1]), steps[n - 1]);
    }
  }

  /**
   * An expiry cancels a run at the very version the sweeper saw, whose pause carries a stamp before
   * the cutoff, and since that version was committed the run was PAUSED without interruption.
   */
  lemma ExpiryFindsAnUnbrokenPause(steps: seq<Step>, k: nat)
    requires Expires(RunAll(steps), k)
    ensures var w, look := RunAll(steps), RunAll(steps).looks[k];
      && w.run.status == PAUSED && w.run.version == look.version < |w.times|
      && look.stamp < look.cutoff && look.stamp <= w.times[look.version]
      && Apply(w, ExpireSeen(k)).run.status == CANCELLED
    ensures forall j :: 0 <= j <= |steps| && RunAll(steps[..j]).run.version == RunAll(steps).run.version ==>
      RunAll(steps[..j]).run.status == PAUSED
  {
    SweptForever(steps);
    var w := RunAll(steps);
    assert LookFits(w, w.looks[k]);
    forall j | 0 <= j <= |steps| && RunAll(steps[..j]).run.version == w.run.version
      ensures RunAll(steps[..j]).run.status == PAUSED
    {
      PausedAtItsVersion(steps, j);
    }
  }

  lemma LaterIsAtLeast(steps: seq<Step>, m: nat, j: nat)
    requires m <= j <= |steps|
    ensures RunAll(steps[..m]).clock <= RunAll(steps[..j]).clock
    ensures RunAll(steps[..m]).run.version <= RunAll(steps[..j]).run.version
  {
    assert steps[..j][..m] == steps[..m];
    ClockNeverTurnsBack(steps[..j], m);
    VersionsNeverFall(steps[..j], m);
  }

  /**
   * The expired run had been PAUSED without interruption since before a given time, such as the
   * cutoff, if and only if the pausing transaction had committed before that time. The stamp the
   * sweeper compares with is taken before that commit, so the stamp alone does not give it.
   */
  lemma ExpiryIsTimelyExactlyWhenThePauseWas(steps: seq<Step>, k: nat, since: Time)
    requires Expires(RunAll(steps), k)
    ensures RunAll(steps).looks[k].version < |RunAll(steps).times|
    ensures PausedSince(steps, since) <==> RunAll(steps).times[RunAll(steps).looks[k].version] < since
  {
    ExpiryFindsAnUnbrokenPause(steps, k);
    PauseIsAsOldAsItsCommit(steps, since);
  }

  /** A paused run has been PAUSED since before a time exactly if its version had been committed before it. */
  lemma PauseIsAsOldAsItsCommit(steps: seq<Step>, since: Time)
    requires RunAll(steps).run.status == PAUSED
    ensures RunAll(steps).run.version < |RunAll(steps).times|
    ensures PausedSince(steps, since) <==> RunAll(steps).times[RunAll(steps).run.version] < since
  {
    var w := RunAll(steps);
    SweptForever(steps);
    HistoryConsistent(steps);
    assert w.run.version > 0;
    var m := MomentOfEntry(steps, w.run.version);
    if w.times[w.run.version] < since {
      PauseCovers(steps, w.run.version, m, since);
    } else {
      PauseWasNotYet(steps, w.run.version, m);
      assert !PausedSince(steps, since);
    }
  }

  /**
   * What a sweeper may rely on: if pauses commit at most `lag` after their stamp, then the run it
   * expires had been PAUSED without interruption since before the cutoff plus that lag. A writer
   * that stamps and commits at once gives the cutoff itself.
   */
  lemma ExpiryIsTimelyUpToTheLag(steps: seq<Step>, k: nat, lag: nat)
    requires Expires(RunAll(steps), k)
    requires var w, look := RunAll(steps), RunAll(steps).looks[k];
      look.version < |w.times| ==> w.times[look.version] <= look.stamp + lag
    ensures PausedSince(steps, RunAll(steps).looks[k].cutoff + lag)
  {
    ExpiryFindsAnUnbrokenPause(steps, k);
    ExpiryIsTimelyExactlyWhenThePauseWas(steps, k, RunAll(steps).looks[k].cutoff + lag);
  }

  lemma PauseCovers(steps: seq<Step>, v: nat, m: nat, since: Time)
    requires m < |steps| && RunAll(steps[..m]).run.version < v <= RunAll(steps[..m + 1]).run.version
    requires RunAll(steps[..m]).clock < since && v == RunAll(steps).run.version && RunAll(steps).run.status == PAUSED
    ensures PausedSince(steps, since)
  {
    forall j | 0 <= j <= |steps| && RunAll(steps[..j]).clock >= since
      ensures RunAll(steps[..j]).run.status == PAUSED
    {
      if j <= m {
        LaterIsAtLeast(steps, j, m);
      } else {
        LaterIsAtLeast(steps, m + 1, j);
        VersionsNeverFall(steps, j);
        PausedAtItsVersion(steps, j);
      }
    }
  }

  lemma BeforeThePause(before: World, after: World)
    requires Consistent(before) && Consistent(after) && PausesInterrupt(after.entries)
    requires before.entries <= after.entries && before.run.version + 1 == after.run.version
    requires after.run.status == PAUSED
    ensures before.run.status != PAUSED
  {
  }

  /** Just before a pause commits, the run is not paused. */
  lemma PauseWasNotYet(steps: seq<Step>, v: nat, m: nat)
    requires m < |steps| && RunAll(steps[..m]).run.version < v <= RunAll(steps[..m + 1]).run.version
    requires v == RunAll(steps).run.version && RunAll(steps).run.status == PAUSED
    ensures RunAll(steps[..m]).run.status != PAUSED
  {
    OneStepUp(steps, m);
    HistoryConsistent(steps[..m]);
    HistoryConsistent(steps);
    SweptForever(steps);
    VersionsNeverFall(steps, m);
    VersionsNeverFall(steps, m + 1);
    BeforeThePause(RunAll(steps[..m]), RunAll(steps));
  }

  lemma OneStepUp(steps: seq<Step>, m: nat)
    requires m < |steps|
    ensures RunAll(steps[..m + 1]).run.version <= RunAll(steps[..m]).run.version + 1
  {
    assert steps[..m + 1][..m] == steps[..m];
    HistoryConsistent(steps[..m]);
    OneVersionAtATime(RunAll(steps[..m]), steps[m]);
  }

  /** A run paused at clock 10 by a handler that stamped 0, swept at once with a lifetime of 5. */
  const LAGGING: seq<Step> :=
    [Tick(10)] + [Act(PauseAction, PENDING, 0, 0)] + [LookAt(ForExpiry, 5, 10)]

  /** The stamp can be older than the commit: this run expires although it was paused at the cutoff's far side. */
  lemma ALaggingPauseExpiresEarly()
    ensures Expires(RunAll(LAGGING), 0)
    ensures !PausedSince(LAGGING, RunAll(LAGGING).looks[0].cutoff)
  {
    var s1 := [Tick(10)];
    var s2 := s1 + [Act(PauseAction, PENDING, 0, 0)];
    assert s1[..0] == [] && s2[..1] == s1 && LAGGING[..2] == s2;
    assert RunAll(s1) == Apply(START, Tick(10));
    assert RunAll(s2) == Apply(RunAll(s1), Act(PauseAction, PENDING, 0, 0));
    assert RunAll(LAGGING) == Apply(RunAll(s2), LookAt(ForExpiry, 5, 10));
    ExpiryIsTimelyExactlyWhenThePauseWas(LAGGING, 0, RunAll(LAGGING).looks[0].cutoff);
  }

  /** Purging redacts only runs that expiry itself cancelled. */
  lemma OnlyExpiredRunsAreRedacted(steps: seq<Step>)
    requires RunAll(steps).run.redacted
    ensures var w := RunAll(steps);
      w.run.status == CANCELLED && w.run.version < |w.entries| && w.entries[w.run.version].ExpiredEntry?
  {
    SweptForever(steps);
  }

  /** At most one reminder is recorded per pause, that is, per version; and only paused versions get one. */
  lemma OneReminderPerPause(steps: seq<Step>, j: nat, k: nat)
    requires j < k < |RunAll(steps).reminders|
    ensures RunAll(steps).reminders[j] != RunAll(steps).reminders[k]
    ensures RunAll(steps).reminders[j] < |RunAll(steps).entries|
    ensures StatusOf(RunAll(steps).entries[RunAll(steps).reminders[j]]) == PAUSED
  {
    SweptForever(steps);
  }
}
