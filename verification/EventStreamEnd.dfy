/** When a stream that closes by itself has delivered everything. */
module EventStreamEnd {
  import opened Wrappers
  import opened RunRecord
  import opened RunHistory
  import opened RunEvents
  import opened EventStream

  /** The rounds read a log that grows to `log`. */
  predicate Growing(polls: seq<Poll>, log: seq<RunEvent>) {
    PrefixesOf(polls, log) && forall i, j :: 0 <= i < j < |polls| ==> polls[i].log <= polls[j].log
  }

  /** Round `n` is the one that closes the connection. */
  predicate ClosesFirst(cursor: nat, polls: seq<Poll>, n: nat) {
    n < |polls| && Closes(cursor, polls, n) && forall i :: 0 <= i < n ==> !Closes(cursor, polls, i)
  }

  lemma RestIsRead(log: seq<RunEvent>, cursor: nat)
    requires WellNumbered(log) && cursor <= |log| && |ListRunEventsAfter(log, cursor, BATCH)| < BATCH
    ensures ListRunEventsAfter(log, cursor, BATCH) == log[cursor..]
  {
    AfterIsSuffix(log, cursor);
  }

  /** A connection that has closed has written what the closing round had read, and nothing beyond it. */
  lemma ClosedStreamHasWhatWasRead(log: seq<RunEvent>, cursor: nat, polls: seq<Poll>, n: nat)
    requires WellNumbered(log) && Growing(polls, log) && ClosesFirst(cursor, polls, n) && cursor <= |polls[0].log|
    ensures Emit(cursor, polls) == polls[n].log[cursor..]
  {
    var read, before := polls[n].log, Emit(cursor, polls[..n]);
    ReadSoFar(log, cursor, polls, n);
    FollowsLastId(read, cursor, before);
    ClosedConnectionWritesNothing(cursor, polls, n);
    RestIsRead(read, cursor + |before|);
    TwoParts(read, cursor, before);
  }

  lemma ReadSoFar(log: seq<RunEvent>, cursor: nat, polls: seq<Poll>, n: nat)
    requires WellNumbered(log) && Growing(polls, log) && n < |polls| && cursor <= |polls[0].log|
    ensures WellNumbered(polls[n].log) && cursor <= |polls[n].log|
    ensures Follows(polls[n].log, cursor, Emit(cursor, polls[..n]))
  {
    var read := polls[n].log;
    assert read <= log && polls[0].log <= read;
    assert WellNumbered(read);
    ConnectionEmitsConsecutively(read, cursor, polls[..n]);
  }

  lemma TwoParts(log: seq<RunEvent>, cursor: nat, before: seq<RunEvent>)
    requires cursor <= |log| && Follows(log, cursor, before)
    ensures cursor + |before| <= |log|
    ensures before + log[cursor + |before|..] == log[cursor..]
  {
  }

  /**
   * The end of a run is looked up after its events have been read. So a stream that has closed holds
   * the whole log if and only if no event was added between the closing round's two reads or later.
   */
  lemma ClosedStreamIsCompleteExactly(log: seq<RunEvent>, cursor: nat, polls: seq<Poll>, n: nat)
    requires WellNumbered(log) && Growing(polls, log) && ClosesFirst(cursor, polls, n) && cursor <= |polls[0].log|
    ensures Emit(cursor, polls) == log[cursor..] <==> |polls[n].log| == |log|
  {
    ClosedStreamHasWhatWasRead(log, cursor, polls, n);
  }

  // ---- A stream that misses the end ----

  predicate Ended(status: RunStatus) {
    status in {COMPLETED, FAILED, CANCELLED}
  }

  /** A round whose events are read after `i` steps of a run and whose end is looked up after `j`. */
  ghost function RoundOf(steps: seq<Step>, i: nat, j: nat): Poll
    requires i <= j <= |steps|
  {
    Poll(RunAll(steps[..i]).run.events, Ended(RunAll(steps[..j]).run.status))
  }

  function Answered(fails: bool): Answer {
    Answer(0, fails, false, true, None, None, false, false, false, false, false)
  }

  /** A worker claims the run, its first transaction throws for good, and it fails the run. */
  const FAILING: seq<Step> :=
    [Deliver(Job(0, Start, None), 0, map[], 0)] + [Work(0, Answered(true))] + [Work(0, Answered(false))]

  lemma FailsAtOnce(w: World)
    requires w == Apply(START, Deliver(Job(0, Start, None), 0, map[], 0))
    ensures |w.run.events| == 1 && w.run.status == RUNNING
    ensures Apply(w, Work(0, Answered(true))).run == w.run
    ensures |Apply(w, Work(0, Answered(true))).workers| == 1
    ensures Apply(w, Work(0, Answered(true))).workers[0] == w.workers[0].(phase := Throwing(false))
    ensures w.workers[0].token == 1 == w.run.version && Apply(w, Work(0, Answered(true))).clock == 0
  {
  }

  lemma ThenFailsTheRun(w: World)
    requires |w.workers| == 1 && w.workers[0].phase == Throwing(false) && Active(w.run, w.workers[0].token) && w.clock == 0
    ensures var run := Apply(w, Work(0, Answered(false))).run;
      run.status == FAILED && |run.events| == |w.run.events| + 1 && run.events[|w.run.events|].kind == RunFailedEvent
  {
  }

  /** A stream can close without the event that ended its run. */
  lemma TheLastEventCanBeMissed()
    ensures var log, poll := RunAll(FAILING).run.events, RoundOf(FAILING, 2, 3);
      && |log| == 2 && log[1].kind == RunFailedEvent
      && ClosesFirst(0, [poll], 0) && Emit(0, [poll]) == log[..1]
  {
    var s1 := [Deliver(Job(0, Start, None), 0, map[], 0)];
    var s2 := s1 + [Work(0, Answered(true))];
    assert s1[..0] == [] && s2[..1] == s1 && FAILING[..2] == s2 && FAILING[..3] == FAILING;
    FailsAtOnce(RunAll(s1));
    assert RunAll(s2) == Apply(RunAll(s1), Work(0, Answered(true)));
    ThenFailsTheRun(RunAll(s2));
    assert RunAll(FAILING) == Apply(RunAll(s2), Work(0, Answered(false)));
    EventsAreNumbered(FAILING);
    LogIsAppendOnly(FAILING, 2);
    OneRoundReads(RunAll(FAILING).run.events, RoundOf(FAILING, 2, 3));
  }

  lemma OneRoundReads(log: seq<RunEvent>, poll: Poll)
    requires WellNumbered(log) && poll.log <= log && |poll.log| < BATCH && poll.terminal
    ensures ClosesFirst(0, [poll], 0) && Emit(0, [poll]) == poll.log
  {
    assert [poll][..0] == [];
    AfterIsSuffix(poll.log, 0);
    assert poll.log[0..] == poll.log;
  }
}
