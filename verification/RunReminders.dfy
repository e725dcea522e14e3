/** How long a run has really been waiting when it is reminded of. */
module RunReminders {
  import opened Wrappers
  import opened FileRevisions
  import opened RunRecord
  import opened RunHistory
  import opened RunLaws
  import opened RunSweeps

  /** The step really records a reminder. */
  predicate Reminds(w: World, k: nat) {
    k < |w.looks| && w.looks[k].kind.ForReminder? && w.run.status == PAUSED && w.run.reminderSentAt.None?
  }

  // ---- A version that a sweeper has not seen was committed after it looked ----

  predicate LookPrecedes(w: World, look: Look) {
    && look.now <= w.clock && look.version < |w.times|
    && forall v :: look.version < v < |w.times| ==> w.times[v] >= look.now
  }

  predicate LooksPrecede(w: World) {
    forall k :: 0 <= k < |w.looks| ==> LookPrecedes(w, w.looks[k])
  }

  lemma LaterStatePrecedes(w: World, next: World, look: Look)
    requires LookPrecedes(w, look) && w.clock <= next.clock
    requires next.times == w.times || next.times == w.times + [w.clock]
    ensures LookPrecedes(next, look)
  {
  }

  lemma StepKeepsTimes(steps: seq<Step>, step: Step)
    ensures var w, next := RunAll(steps), Apply(RunAll(steps), step);
      && w.clock <= next.clock && (next.times == w.times || next.times == w.times + [w.clock])
  {
    var w, next := RunAll(steps), Apply(RunAll(steps), step);
    HistoryConsistent(steps);
    SweptForever(steps);
    StepTimes(w, step);
    StepKeepsSwept(w, step);
    if next.run.version == w.run.version {
      assert |next.times| == |w.times| && next.times[..|w.times|] == w.times;
    }
  }

  lemma NewLook(w: World, step: Step, k: nat)
    requires Timely(w) && k < |Apply(w, step).looks|
    ensures |w.looks| <= |Apply(w, step).looks|
    ensures k < |w.looks| ==> Apply(w, step).looks[k] == w.looks[k]
    ensures k >= |w.looks| ==> LookPrecedes(Apply(w, step), Apply(w, step).looks[k])
  {
  }

  lemma {:induction false} LooksAlwaysPrecede(steps: seq<Step>)
    ensures LooksPrecede(RunAll(steps))
  {
    if steps != [] {
      var before, step := steps[..|steps| - 1], steps[|steps| - 1];
      LooksAlwaysPrecede(before);
      SweptForever(before);
      StepKeepsTimes(before, step);
      var w, next := RunAll(before), Apply(RunAll(before), step);
      forall k: nat | k < |next.looks|
        ensures LookPrecedes(next, next.looks[k])
      {
        NewLook(w, step, k);
        if k < |w.looks| {
          LaterStatePrecedes(w, next, w.looks[k]);
        }
      }
    }
  }

  // ---- Main results ----

  lemma ReminderIsRecorded(w: World, k: nat)
    ensures Apply(w, RemindSeen(k)) != w ==> Reminds(w, k)
    ensures Reminds(w, k) ==>
      && Apply(w, RemindSeen(k)).reminders == w.reminders + [w.run.version]
      && Apply(w, RemindSeen(k)).run.reminderSentAt == Some(w.looks[k].now)
  {
  }

  /**
   * The reminder compares the status but not the version. So the run that is reminded of had been
   * PAUSED without interruption since before the cutoff if and only if it is still at the version the
   * sweeper saw, and that version had been committed before the cutoff. The sweeper's cutoff lies
   * before its own clock.
   */
  lemma ReminderIsTimelyExactly(steps: seq<Step>, k: nat)
    requires Reminds(RunAll(steps), k) && RunAll(steps).looks[k].cutoff <= RunAll(steps).looks[k].now
    ensures var w, look := RunAll(steps), RunAll(steps).looks[k];
      look.version < |w.times|
      && (PausedSince(steps, look.cutoff) <==> w.run.version == look.version && w.times[look.version] < look.cutoff)
  {
    var w, look := RunAll(steps), RunAll(steps).looks[k];
    LooksAlwaysPrecede(steps);
    SweptForever(steps);
    assert LookPrecedes(w, look) && LookFits(w, look);
    PauseIsAsOldAsItsCommit(steps, look.cutoff);
    VersionsOfLooks(steps, k);
  }

  lemma VersionsOfLooks(steps: seq<Step>, k: nat)
    requires k < |RunAll(steps).looks|
    ensures RunAll(steps).looks[k].version <= RunAll(steps).run.version
  {
    SweptForever(steps);
    assert LookFits(RunAll(steps), RunAll(steps).looks[k]);
  }

  /** If pauses commit at most `lag` after their stamp, a reminder of the pause that was seen is not early by more. */
  lemma ReminderOfTheSeenPause(steps: seq<Step>, k: nat, lag: nat)
    requires Reminds(RunAll(steps), k)
    requires var w, look := RunAll(steps), RunAll(steps).looks[k];
      w.run.version == look.version && (look.version < |w.times| ==> w.times[look.version] <= look.stamp + lag)
    ensures PausedSince(steps, RunAll(steps).looks[k].cutoff + lag)
  {
    SweptForever(steps);
    assert LookFits(RunAll(steps), RunAll(steps).looks[k]);
    PauseIsAsOldAsItsCommit(steps, RunAll(steps).looks[k].cutoff + lag);
  }

  // ---- A reminder of a pause that has just begun ----

  /** Paused at 0, seen at 10 with a cutoff of 5, resumed and paused again before the reminder is recorded. */
  const RESUMED: seq<Step> :=
    [Act(PauseAction, PENDING, 0, 0)] + [Tick(10)] + [LookAt(ForReminder, 5, 10)] + [Act(ResumeAction, PAUSED, 1, 10)]
    + [Act(PauseAction, PENDING, 2, 10)]

  /** The run stands at this version and status, unreminded, with one look at version 1 so far, or none. */
  predicate Shows(w: World, version: nat, status: RunStatus, looked: bool) {
    && w.run.version == version && w.run.status == status && w.run.reminderSentAt.None? && w.clock == 10
    && (status == PAUSED ==> w.run.pausedAt == Some(if version == 1 then 0 else 10))
    && (looked ==> |w.looks| == 1 && w.looks[0].kind == ForReminder && w.looks[0].version == 1
                   && w.looks[0].cutoff == 5 && w.looks[0].now == 10)
  }

  lemma FirstPause()
    ensures Shows(Apply(Apply(START, Act(PauseAction, PENDING, 0, 0)), Tick(10)), 1, PAUSED, false)
    ensures Apply(Apply(START, Act(PauseAction, PENDING, 0, 0)), Tick(10)).looks == []
  {
  }

  lemma Looked(w: World)
    requires Shows(w, 1, PAUSED, false) && w.looks == []
    ensures Shows(Apply(w, LookAt(ForReminder, 5, 10)), 1, PAUSED, true)
  {
  }

  lemma PausedAgain(w: World)
    requires Shows(w, 1, PAUSED, true)
    ensures Shows(Apply(Apply(w, Act(ResumeAction, PAUSED, 1, 10)), Act(PauseAction, PENDING, 2, 10)), 3, PAUSED, true)
  {
    assert Shows(Apply(w, Act(ResumeAction, PAUSED, 1, 10)), 2, PENDING, true);
  }

  /** The reminder is recorded although this pause has only just begun. */
  lemma AReminderCanComeEarly()
    ensures Reminds(RunAll(RESUMED), 0)
    ensures RunAll(RESUMED).run.pausedAt == Some(RunAll(RESUMED).clock)
    ensures !PausedSince(RESUMED, RunAll(RESUMED).looks[0].cutoff)
  {
    var s1 := [Act(PauseAction, PENDING, 0, 0)];
    var s2 := s1 + [Tick(10)];
    var s3 := s2 + [LookAt(ForReminder, 5, 10)];
    var s4 := s3 + [Act(ResumeAction, PAUSED, 1, 10)];
    NextStep([], Act(PauseAction, PENDING, 0, 0));
    assert [] + [Act(PauseAction, PENDING, 0, 0)] == s1;
    NextStep(s1, Tick(10));
    FirstPause();
    NextStep(s2, LookAt(ForReminder, 5, 10));
    Looked(RunAll(s2));
    NextStep(s3, Act(ResumeAction, PAUSED, 1, 10));
    NextStep(s4, Act(PauseAction, PENDING, 2, 10));
    PausedAgain(RunAll(s3));
    ReminderIsTimelyExactly(RESUMED, 0);
  }

  lemma NextStep(steps: seq<Step>, step: Step)
    ensures RunAll(steps + [step]) == Apply(RunAll(steps), step)
  {
  }
}
