/** The event log tells the run's control history: claims, approval requests, completions and failures. */
module RunTrace {
  import opened Wrappers
  import opened FileRevisions
  import opened RunRecord
  import opened RunHistory
  import opened RunLaws
  import opened RunWrites

  /** What happens to the run as a whole; the last two leave its version alone. */
  datatype Mark =
    | ClaimMark(command: Command, version: nat)
    | GateMark(scope: Scope)
    | CompletionMark
    | FailureMark
    | ReminderMark
    | PurgeMark

  function MarkOf(kind: EventKind): seq<Mark> {
    match kind
    case StatusChanged(command, version) => [ClaimMark(command, version)]
    case ApprovalRequired(scope) => [GateMark(scope)]
    case RunCompletedEvent => [CompletionMark]
    case RunFailedEvent => [FailureMark]
    case ReminderDue => [ReminderMark]
    case DataPurged => [PurgeMark]
    case _ => []
  }

  function Marks(events: seq<RunEvent>): seq<Mark> {
    if events == [] then [] else Marks(events[..|events| - 1]) + MarkOf(events[|events| - 1].kind)
  }

  /** The marks that go with a new version. */
  function Controls(marks: seq<Mark>): seq<Mark> {
    if marks == [] then []
    else
      var mark := marks[|marks| - 1];
      Controls(marks[..|marks| - 1]) + if mark.ReminderMark? || mark.PurgeMark? then [] else [mark]
  }

  function CountMarks(marks: seq<Mark>, mark: Mark): nat {
    if marks == [] then 0
    else CountMarks(marks[..|marks| - 1], mark) + if marks[|marks| - 1] == mark then 1 else 0
  }

  lemma MarkSnoc(marks: seq<Mark>, mark: Mark, other: Mark)
    ensures Controls(marks + [mark]) == Controls(marks) + if mark.ReminderMark? || mark.PurgeMark? then [] else [mark]
    ensures CountMarks(marks + [mark], other) == CountMarks(marks, other) + if mark == other then 1 else 0
  {
    assert (marks + [mark])[..|marks|] == marks;
  }

  /** What the entry at `v` calls for; a claim carries the command of the job that the version below it queued. */
  function EntryMark(entries: seq<Entry>, v: nat): seq<Mark>
    requires v < |entries|
  {
    match entries[v]
    case ClaimedEntry =>
      if v > 0 && JobOf(entries[v - 1], v - 1).Some? then [ClaimMark(JobOf(entries[v - 1], v - 1).value.command, v)] else []
    case e => PlainMark(e)
  }

  function PlainMark(e: Entry): seq<Mark> {
    match e
    case GateEntry(scope) => [GateMark(scope)]
    case CompletedEntry => [CompletionMark]
    case FailedEntry => [FailureMark]
    case _ => []
  }

  function EntryMarks(entries: seq<Entry>): seq<Mark> {
    if entries == [] then [] else EntryMarks(entries[..|entries| - 1]) + EntryMark(entries, |entries| - 1)
  }

  lemma EntryMarksSnoc(entries: seq<Entry>, e: Entry)
    ensures EntryMarks(entries + [e]) == EntryMarks(entries) + EntryMark(entries + [e], |entries|)
  {
    assert (entries + [e])[..|entries|] == entries;
  }

  // ---- What one step adds ----

  predicate Unmarked(kinds: seq<EventKind>) {
    forall i :: 0 <= i < |kinds| ==> MarkOf(kinds[i]) == []
  }

  lemma {:induction false} UnmarkedNews(before: seq<RunEvent>, after: seq<RunEvent>)
    requires |before| <= |after| && after[..|before|] == before && Unmarked(News(before, after))
    ensures Marks(after) == Marks(before)
    decreases |after|
  {
    if |after| == |before| {
      assert after == before;
    } else {
      var n := |after| - 1;
      assert after[..n][..|before|] == before;
      assert News(before, after)[..|News(before, after)| - 1] == News(before, after[..n]);
      assert News(before, after)[n - |before|] == after[n].kind;
      UnmarkedNews(before, after[..n]);
    }
  }

  lemma TaskKindsUnmarked(tasks: map<Agent, Task>, tasks': map<Agent, Task>, kinds: seq<EventKind>, g: Agent)
    requires TaskWrites(tasks, tasks', kinds, g)
    ensures Unmarked(kinds)
  {
  }

  lemma WritesUnmarked(run: Run, run': Run, g: Agent)
    requires Writes(run, run', g)
    ensures Marks(run'.events) == Marks(run.events)
  {
    TaskKindsUnmarked(run.tasks, run'.tasks, News(run.events, run'.events), g);
    UnmarkedNews(run.events, run'.events);
  }

  /** The log is one event longer by what these marks say, or the same. */
  predicate Adds(run: Run, run': Run, marks: seq<Mark>) {
    || (run'.events == run.events && marks == [])
    || (|run'.events| == |run.events| + 1 && run'.events[..|run.events|] == run.events
        && MarkOf(run'.events[|run.events|].kind) == marks)
  }

  lemma AddsMarks(run: Run, run': Run, marks: seq<Mark>)
    requires Adds(run, run', marks)
    ensures Marks(run'.events) == Marks(run.events) + marks
  {
    if run'.events != run.events || marks != [] {
      assert run'.events[..|run'.events| - 1] == run.events;
    }
  }

  /** A worker's exit leaves the mark of its entry; without an exit it leaves none. */
  predicate Exits(run: Run, run': Run, e: Entry) {
    Adds(run, run', if run'.version == run.version then [] else PlainMark(e))
  }

  lemma ExitsLeaveMarks(run: Run, token: nat, scope: Scope, now: Time)
    ensures Exits(run, RequestApproval(run, token, scope, now).0, GateEntry(scope))
    ensures Exits(run, CompleteRun(run, token, now).0, CompletedEntry)
    ensures Exits(run, FailRun(run, token, now).0, FailedEntry)
  {
  }

  lemma RepairLeavesNone(run: Run, files: seq<Revision>, token: nat, patch: seq<PatchFile>, now: Time)
    ensures Exits(run, ApplyRepair(run, files, token, patch, now).0, CompletedEntry)
  {
  }

  lemma OtherPhaseExits(run: Run, files: seq<Revision>, worker: Worker, a: Answer)
    requires !InNode(worker.phase)
    ensures Exits(run, Advance(run, files, worker, a).run, EntryOf(worker))
  {
    ExitsLeaveMarks(run, worker.token, PlanScope, a.now);
    ExitsLeaveMarks(run, worker.token, ContentScope, a.now);
    if a.patch.Some? {
      RepairLeavesNone(run, files, worker.token, a.patch.value, a.now);
    }
    if worker.phase.AtPlanGate? || worker.phase.AtContentGate? {
      GateRuns(run, files, worker, a);
    } else if worker.phase.CheckingRoutes? {
      RoutesRun(run, files, worker, a);
    } else if worker.phase.Validating? {
      EndRuns(run, files, worker, a);
    }
  }

  lemma RoutesRun(run: Run, files: seq<Revision>, worker: Worker, a: Answer)
    requires worker.phase.CheckingRoutes?
    ensures var run' := Advance(run, files, worker, a).run;
      run' == run || (a.patch.Some? && run' == ApplyRepair(run, files, worker.token, a.patch.value, a.now).0)
    ensures Advance(run, files, worker, a).run.version == run.version
  {
  }

  lemma FrameVersion(run: Run, run': Run)
    requires Frame(run') == Frame(run)
    ensures run'.version == run.version
  {
    assert Frame(run').version == run'.version && Frame(run).version == run.version;
  }

  lemma NodeMoves(run: Run, files: seq<Revision>, worker: Worker, a: Answer, e: Entry)
    requires InNode(worker.phase)
    ensures WorkerMoves(run, Advance(run, files, worker, a).run, worker.token, e)
  {
    match worker.phase
    case AtAgent(g) => TaskStepsMove(run, files, worker, g, a, e);
    case Prepared(g) => TaskStepsMove(run, files, worker, g, a, e);
    case Executing(g) => ExecuteMoves(run, files, worker, g, a, e);
    case FailingTask(g, _) => StartMoves(run, worker.token, g, a.now, e);
  }

  /** No agent's step moves the version: one exit cannot fit two different entries. */
  lemma NodeKeepsVersion(run: Run, files: seq<Revision>, worker: Worker, a: Answer)
    requires InNode(worker.phase)
    ensures Advance(run, files, worker, a).run.version == run.version
  {
    var run' := Advance(run, files, worker, a).run;
    NodeMoves(run, files, worker, a, CreatedEntry);
    NodeMoves(run, files, worker, a, ClaimedEntry);
    if run' != run {
      FrameVersion(run, run');
    }
  }

  lemma AdvanceMarks(run: Run, files: seq<Revision>, worker: Worker, a: Answer)
    ensures var run' := Advance(run, files, worker, a).run;
      Marks(run'.events) == Marks(run.events) + if run'.version == run.version then [] else PlainMark(EntryOf(worker))
  {
    var run' := Advance(run, files, worker, a).run;
    if InNode(worker.phase) {
      NodeStepWrites(run, files, worker, a);
      WritesUnmarked(run, run', AgentAt(worker.phase));
      NodeKeepsVersion(run, files, worker, a);
    } else {
      OtherPhaseExits(run, files, worker, a);
      AddsMarks(run, run', if run'.version == run.version then [] else PlainMark(EntryOf(worker)));
    }
  }

  // ---- Whole histories ----

  /** The log, read for marks, against the entries, the reminders and the purge. */
  predicate Traced(w: World) {
    var marks := Marks(w.run.events);
    && Controls(marks) == EntryMarks(w.entries)
    && CountMarks(marks, ReminderMark) == |w.reminders|
    && CountMarks(marks, PurgeMark) == if w.run.purgedAt.Some? then 1 else 0
  }

  /** The marks of the new log are those of the old one, and one more at most. */
  predicate MarksGrow(w: World, next: World, added: seq<Mark>) {
    |added| <= 1 && Marks(next.run.events) == Marks(w.run.events) + added
  }

  lemma GrownTraced(w: World, next: World, added: seq<Mark>)
    requires Traced(w) && MarksGrow(w, next, added)
    requires EntryMarks(next.entries) == EntryMarks(w.entries) + Controls(added)
    requires |next.reminders| == |w.reminders| + CountMarks(added, ReminderMark)
    requires (if next.run.purgedAt.Some? then 1 else 0)
      == (if w.run.purgedAt.Some? then 1 else 0) + CountMarks(added, PurgeMark)
    ensures Traced(next)
  {
    var marks := Marks(w.run.events);
    if added == [] {
      assert marks + added == marks;
    } else {
      assert added == [added[0]];
      MarkSnoc(marks, added[0], ReminderMark);
      MarkSnoc(marks, added[0], PurgeMark);
      OneMark(added[0], ReminderMark);
      OneMark(added[0], PurgeMark);
    }
  }

  lemma OneMark(mark: Mark, other: Mark)
    ensures Controls([mark]) == if mark.ReminderMark? || mark.PurgeMark? then [] else [mark]
    ensures CountMarks([mark], other) == if mark == other then 1 else 0
  {
    assert [mark][..0] == [];
  }

  lemma ControlMark(mark: Mark)
    requires !mark.ReminderMark? && !mark.PurgeMark?
    ensures Controls([mark]) == [mark]
    ensures CountMarks([mark], ReminderMark) == 0 && CountMarks([mark], PurgeMark) == 0
  {
    OneMark(mark, ReminderMark);
    OneMark(mark, PurgeMark);
  }

  lemma PlainMarkIsControl(e: Entry)
    ensures |PlainMark(e)| <= 1 && Controls(PlainMark(e)) == PlainMark(e)
    ensures CountMarks(PlainMark(e), ReminderMark) == 0 && CountMarks(PlainMark(e), PurgeMark) == 0
  {
    match e
    case GateEntry(scope) => ControlMark(GateMark(scope));
    case CompletedEntry => ControlMark(CompletionMark);
    case FailedEntry => ControlMark(FailureMark);
    case _ => assert PlainMark(e) == [];
  }

  /** A step that adds an entry and its mark, or neither. */
  lemma EntryTraced(w: World, next: World, e: Entry)
    requires Traced(w) && !e.ClaimedEntry?
    requires next.reminders == w.reminders && next.run.purgedAt == w.run.purgedAt
    requires
      || (next.entries == w.entries && Marks(next.run.events) == Marks(w.run.events))
      || (next.entries == w.entries + [e] && Marks(next.run.events) == Marks(w.run.events) + PlainMark(e))
    ensures Traced(next)
  {
    if next.entries == w.entries {
      assert Marks(w.run.events) + [] == Marks(w.run.events) && EntryMarks(w.entries) + [] == EntryMarks(w.entries);
      GrownTraced(w, next, []);
    } else {
      EntryMarksSnoc(w.entries, e);
      PlainMarkIsControl(e);
      GrownTraced(w, next, PlainMark(e));
    }
  }

  /** A claim that moves the version leaves the mark its entry calls for. */
  lemma ClaimLeavesMark(w: World, job: Job, at: Time)
    requires Consistent(w) && job in w.jobs && Claim(w.run, job, at).0.version != w.run.version
    ensures var mark := ClaimMark(job.command, w.run.version + 1);
      && EntryMark(w.entries + [ClaimedEntry], |w.entries|) == [mark]
      && Adds(w.run, Claim(w.run, job, at).0, [mark])
  {
    assert JobFits(w.entries, job);
  }

  lemma NewClaimTraced(w: World, next: World, mark: Mark)
    requires Traced(w) && mark.ClaimMark? && Adds(w.run, next.run, [mark])
    requires EntryMark(w.entries + [ClaimedEntry], |w.entries|) == [mark] && next.entries == w.entries + [ClaimedEntry]
    requires next.reminders == w.reminders && next.run.purgedAt == w.run.purgedAt
    ensures Traced(next)
  {
    EntryMarksSnoc(w.entries, ClaimedEntry);
    AddsMarks(w.run, next.run, [mark]);
    OneMark(mark, ReminderMark);
    OneMark(mark, PurgeMark);
    GrownTraced(w, next, [mark]);
  }

  lemma ClaimTraced(w: World, job: Job, at: Time, restored: map<Agent, Output>, maxRepairs: nat)
    requires Consistent(w) && Traced(w) && job in w.jobs
    ensures Traced(DeliverOn(w, job, at, restored, maxRepairs))
  {
    var next := DeliverOn(w, job, at, restored, maxRepairs);
    if next.run.version != w.run.version {
      ClaimLeavesMark(w, job, at);
      NewClaimTraced(w, next, ClaimMark(job.command, w.run.version + 1));
    }
  }

  lemma WorkTraced(w: World, i: nat, a: Answer)
    requires Consistent(w) && Traced(w) && i < |w.workers|
    ensures Traced(WorkOn(w, i, a))
  {
    var worker := w.workers[i];
    var r := Advance(w.run, w.files, worker, a);
    AdvanceMarks(w.run, w.files, worker, a);
    if Active(w.run, worker.token) {
      ActiveHasNoError(w, worker.token);
    }
    AdvanceMoves(w.run, w.files, worker, a);
    WorkerKeepsPurgeMark(w.run, r.run, worker.token, EntryOf(worker));
    assert Marks(w.run.events) + [] == Marks(w.run.events);
    EntryTraced(w, WorkOn(w, i, a), EntryOf(worker));
  }

  lemma WorkerKeepsPurgeMark(run: Run, run': Run, token: nat, e: Entry)
    requires WorkerMoves(run, run', token, e)
    ensures run'.purgedAt == run.purgedAt
  {
  }

  lemma ActTraced(w: World, action: Action, seenStatus: RunStatus, seenVersion: nat, at: Time)
    requires Traced(w)
    ensures Traced(ActOn(w, action, seenStatus, seenVersion, at))
  {
    assert Marks(w.run.events) + [] == Marks(w.run.events);
    EntryTraced(w, ActOn(w, action, seenStatus, seenVersion, at), ActionEntry(action));
  }

  lemma ExpiryTraced(w: World, k: nat)
    requires Traced(w)
    ensures Traced(Apply(w, ExpireSeen(k)))
  {
    assert Marks(w.run.events) + [] == Marks(w.run.events);
    EntryTraced(w, Apply(w, ExpireSeen(k)), ExpiredEntry);
  }

  lemma NoticeTraced(w: World, next: World, notice: Mark)
    requires Traced(w) && (notice.ReminderMark? || notice.PurgeMark?)
    requires Adds(w.run, next.run, [notice]) && next.entries == w.entries
    requires |next.reminders| == |w.reminders| + if notice.ReminderMark? then 1 else 0
    requires if notice.PurgeMark? then w.run.purgedAt.None? && next.run.purgedAt.Some?
             else next.run.purgedAt == w.run.purgedAt
    ensures Traced(next)
  {
    AddsMarks(w.run, next.run, [notice]);
    OneMark(notice, ReminderMark);
    OneMark(notice, PurgeMark);
    assert EntryMarks(w.entries) + [] == EntryMarks(w.entries);
    GrownTraced(w, next, [notice]);
  }

  lemma QuietTraced(w: World, next: World)
    requires Traced(w) && Adds(w.run, next.run, [])
    requires next.entries == w.entries && next.reminders == w.reminders && next.run.purgedAt == w.run.purgedAt
    ensures Traced(next)
  {
    AddsMarks(w.run, next.run, []);
    assert Marks(w.run.events) + [] == Marks(w.run.events);
  }

  lemma RemindTraced(w: World, k: nat)
    requires Traced(w)
    ensures Traced(Apply(w, RemindSeen(k)))
  {
    var next := Apply(w, RemindSeen(k));
    if next != w {
      NoticeTraced(w, next, ReminderMark);
    }
  }

  lemma PurgeTraced(w: World, k: nat)
    requires Traced(w)
    ensures Traced(Apply(w, PurgeSeen(k)))
  {
    var next := Apply(w, PurgeSeen(k));
    if next != w {
      NoticeTraced(w, next, PurgeMark);
    }
  }

  predicate IsQuiet(step: Step) {
    step.Tick? || step.Mark? || step.Crash? || step.LookAt? || step.OtherEvent? || step.UserEdit?
  }

  lemma QuietStepTraced(w: World, step: Step)
    requires Traced(w) && IsQuiet(step)
    ensures Traced(Apply(w, step))
  {
    QuietTraced(w, Apply(w, step));
  }

  lemma StepTraced(w: World, step: Step)
    requires Consistent(w) && Traced(w)
    ensures Traced(Apply(w, step))
  {
    match step
    case Work(i, a) =>
      if i < |w.workers| && a.now <= w.clock {
        WorkTraced(w, i, a);
      }
    case Deliver(job, at, restored, maxRepairs) =>
      if job in w.jobs {
        ClaimTraced(w, job, at, restored, maxRepairs);
      }
    case Act(action, seenStatus, seenVersion, at) => ActTraced(w, action, seenStatus, seenVersion, at);
    case ExpireSeen(k) => ExpiryTraced(w, k);
    case RemindSeen(k) => RemindTraced(w, k);
    case PurgeSeen(k) => PurgeTraced(w, k);
    case _ => QuietStepTraced(w, step);
  }

  /**
   * The event log and the control history agree in every history: read in order, the claims (with
   * their command and version), approval requests, completions and failures in the log are exactly
   * those that gave the run its versions. None is logged twice, out of order, or not at all. And
   * every reminder and the purge are in the log once each.
   */
  lemma {:induction false} LogTellsTheControlHistory(steps: seq<Step>)
    ensures var w := RunAll(steps);
      var marks := Marks(w.run.events);
      && Controls(marks) == EntryMarks(w.entries)
      && CountMarks(marks, ReminderMark) == |w.reminders|
      && CountMarks(marks, PurgeMark) == (if w.run.purgedAt.Some? then 1 else 0)
  {
    if steps != [] {
      LogTellsTheControlHistory(steps[..|steps| - 1]);
      HistoryConsistent(steps[..|steps| - 1]);
      StepTraced(RunAll(steps[..|steps| - 1]), steps[|steps| - 1]);
    } else {
      EntryMarksSnoc([], CreatedEntry);
      assert [] + [CreatedEntry] == [CreatedEntry];
    }
  }
}
