/** The server-sent event stream of a run: polling, cursor, reconnection with Last-Event-ID. */
module EventStream {
  import opened Wrappers
  import opened RunRecord
  import opened RunHistory
  import opened RunEvents

  const BATCH := 100
  const MAX_EVENT_ID := 2_147_483_647

  /** The header as JavaScript's `Number` reads it: absent, not a safe integer, or an integer. */
  datatype Header = Absent | NotSafeInteger | Whole(n: int)

  datatype HeaderError = InvalidLastEventId

  function ParseLastEventId(h: Header): (r: Result<nat, HeaderError>)
    ensures r.Err? <==> h.NotSafeInteger? || (h.Whole? && !(0 <= h.n <= MAX_EVENT_ID))
    ensures r.Ok? ==> r.value == if h.Whole? then h.n else 0
  {
    match h
    case Absent => Ok(0)
    case NotSafeInteger => Err(InvalidLastEventId)
    case Whole(n) => if n < 0 || n > MAX_EVENT_ID then Err(InvalidLastEventId) else Ok(n)
  }

  // ---- One query ----

  function After(log: seq<RunEvent>, cursor: nat): seq<RunEvent> {
    if log == [] then []
    else
      var rest, event := After(log[..|log| - 1], cursor), log[|log| - 1];
      if event.sequence > cursor then rest + [event] else rest
  }

  /** `listRunEventsAfter`: the rows beyond the cursor, in order of their numbers, at most `limit`. */
  function ListRunEventsAfter(log: seq<RunEvent>, cursor: nat, limit: nat): seq<RunEvent> {
    var rows := After(log, cursor);
    if |rows| <= limit then rows else rows[..limit]
  }

  predicate WellNumbered(log: seq<RunEvent>) {
    forall i :: 0 <= i < |log| ==> log[i].sequence == i + 1
  }

  function Min(a: nat, b: nat): nat {
    if a <= b then a else b
  }

  lemma {:induction false} AfterIsSuffix(log: seq<RunEvent>, cursor: nat)
    requires WellNumbered(log)
    ensures After(log, cursor) == log[Min(cursor, |log|)..]
  {
    if log != [] {
      AfterIsSuffix(log[..|log| - 1], cursor);
    }
  }

  // ---- One connection ----

  /** One round of the loop: the events it reads, and whether the run is then gone or in a terminal status. */
  datatype Poll = Poll(log: seq<RunEvent>, terminal: bool)

  function LastId(events: seq<RunEvent>, before: nat): nat {
    if events == [] then before else events[|events| - 1].sequence
  }

  /** What a connection writes; it ends with its polls, by disconnection or time-out, or on a terminal run. */
  function Emit(cursor: nat, polls: seq<Poll>): seq<RunEvent>
    decreases |polls|
  {
    if polls == [] then []
    else
      var batch := ListRunEventsAfter(polls[0].log, cursor, BATCH);
      if |batch| < BATCH && polls[0].terminal then batch
      else batch + Emit(LastId(batch, cursor), polls[1..])
  }

  /** The loop of the handler after the headers have been sent. */
  method StreamRunEvents(lastEventId: nat, polls: seq<Poll>) returns (written: seq<RunEvent>)
    ensures written == Emit(lastEventId, polls)
  {
    var cursor := lastEventId;
    written := [];
    var i := 0;
    while i < |polls|
      invariant i <= |polls| && written + Emit(cursor, polls[i..]) == Emit(lastEventId, polls)
    {
      var events := ListRunEventsAfter(polls[i].log, cursor, BATCH);
      ghost var before, start := written, cursor;
      for k := 0 to |events|
        invariant written == before + events[..k] && cursor == LastId(events[..k], start)
      {
        written := written + [events[k]];
        cursor := events[k].sequence;
        assert events[..k + 1] == events[..k] + [events[k]];
      }
      assert events[..|events|] == events && polls[i..][1..] == polls[i + 1..];
      i := i + 1;
      if |events| == BATCH {
        continue;
      }
      if polls[i - 1].terminal {
        return;
      }
    }
  }

  predicate PrefixesOf(polls: seq<Poll>, log: seq<RunEvent>) {
    forall i :: 0 <= i < |polls| ==> polls[i].log <= log
  }

  /** `out` is the part of the log that follows the cursor. */
  predicate Follows(log: seq<RunEvent>, cursor: nat, out: seq<RunEvent>) {
    out == [] || (cursor + |out| <= |log| && forall k :: 0 <= k < |out| ==> out[k] == log[cursor + k])
  }

  lemma FollowsJoin(log: seq<RunEvent>, cursor: nat, a: seq<RunEvent>, b: seq<RunEvent>)
    requires Follows(log, cursor, a) && Follows(log, cursor + |a|, b)
    ensures Follows(log, cursor, a + b)
  {
  }

  lemma FollowsLastId(log: seq<RunEvent>, cursor: nat, out: seq<RunEvent>)
    requires WellNumbered(log) && Follows(log, cursor, out)
    ensures LastId(out, cursor) == cursor + |out|
  {
  }

  lemma BatchFollows(prefix: seq<RunEvent>, log: seq<RunEvent>, cursor: nat)
    requires WellNumbered(log) && prefix <= log
    ensures Follows(log, cursor, ListRunEventsAfter(prefix, cursor, BATCH))
    ensures |ListRunEventsAfter(prefix, cursor, BATCH)| == Min(100, |prefix| - Min(cursor, |prefix|))
  {
    assert WellNumbered(prefix);
    AfterIsSuffix(prefix, cursor);
  }

  lemma TailPrefixes(polls: seq<Poll>, log: seq<RunEvent>)
    requires polls != [] && PrefixesOf(polls, log)
    ensures PrefixesOf(polls[1..], log) && polls[0].log <= log
  {
  }

  /** A connection writes events cursor + 1, cursor + 2, … of the log, in order, without gap or repetition. */
  lemma {:induction false} ConnectionEmitsConsecutively(log: seq<RunEvent>, cursor: nat, polls: seq<Poll>)
    requires WellNumbered(log) && PrefixesOf(polls, log)
    ensures Follows(log, cursor, Emit(cursor, polls))
    decreases |polls|
  {
    if polls != [] {
      var batch := ListRunEventsAfter(polls[0].log, cursor, BATCH);
      TailPrefixes(polls, log);
      BatchFollows(polls[0].log, log, cursor);
      FollowsLastId(log, cursor, batch);
      ConnectionEmitsConsecutively(log, cursor + |batch|, polls[1..]);
      FollowsJoin(log, cursor, batch, Emit(cursor + |batch|, polls[1..]));
    }
  }

  lemma BatchAddsUp(rounds: nat, rest: nat)
    requires rounds > 0
    ensures Min(BATCH, rest) + Min(BATCH * (rounds - 1), rest - Min(BATCH, rest)) == Min(BATCH * rounds, rest)
  {
  }

  /**
   * Enough rounds show a reader everything, whether the run goes on or has ended: after n rounds that
   * all see the log `log`, it has been given the next 100 n events, or all there are.
   */
  lemma {:induction false} RoundsCatchUp(log: seq<RunEvent>, cursor: nat, polls: seq<Poll>)
    requires WellNumbered(log) && cursor <= |log|
    requires forall i :: 0 <= i < |polls| ==> polls[i].log == log
    ensures |Emit(cursor, polls)| == Min(100 * |polls|, |log| - cursor)
    decreases |polls|
  {
    if polls != [] {
      var batch := ListRunEventsAfter(log, cursor, BATCH);
      BatchFollows(log, log, cursor);
      FollowsLastId(log, cursor, batch);
      if |batch| == BATCH || !polls[0].terminal {
        assert forall i :: 0 <= i < |polls[1..]| ==> polls[1..][i] == polls[i + 1];
        RoundsCatchUp(log, cursor + |batch|, polls[1..]);
        BatchAddsUp(|polls|, |log| - cursor);
        assert Emit(cursor, polls) == batch + Emit(LastId(batch, cursor), polls[1..]);
      }
    }
  }

  /** What round `i` of a connection reads. */
  function Round(cursor: nat, polls: seq<Poll>, i: nat): seq<RunEvent>
    requires i < |polls|
  {
    ListRunEventsAfter(polls[i].log, LastId(Emit(cursor, polls[..i]), cursor), BATCH)
  }

  /** The round finds the run gone or ended, and no full batch of events before its end. */
  predicate Closes(cursor: nat, polls: seq<Poll>, i: nat)
    requires i < |polls|
  {
    polls[i].terminal && |Round(cursor, polls, i)| < BATCH
  }

  lemma LastIdJoins(a: seq<RunEvent>, b: seq<RunEvent>, cursor: nat)
    ensures LastId(a + b, cursor) == LastId(b, LastId(a, cursor))
  {
  }

  /** Before the first closing round a connection is a loop over its rounds. */
  lemma {:induction false} EmitSplits(cursor: nat, polls: seq<Poll>, n: nat)
    requires n <= |polls| && forall i :: 0 <= i < n ==> !Closes(cursor, polls, i)
    ensures Emit(cursor, polls)
      == Emit(cursor, polls[..n]) + Emit(LastId(Emit(cursor, polls[..n]), cursor), polls[n..])
    decreases n
  {
    if n == 0 {
      assert polls[..0] == [] && polls[0..] == polls;
    } else {
      var batch, rest := ListRunEventsAfter(polls[0].log, cursor, BATCH), polls[1..];
      var next := LastId(batch, cursor);
      assert polls[..0] == [] && !Closes(cursor, polls, 0);
      assert polls[..n][1..] == rest[..n - 1] && rest[n - 1..] == polls[n..];
      forall i | 0 <= i < n - 1
        ensures !Closes(next, rest, i)
      {
        assert polls[..i + 1][1..] == rest[..i] && rest[i] == polls[i + 1];
        LastIdJoins(batch, Emit(next, rest[..i]), cursor);
        assert !Closes(cursor, polls, i + 1);
      }
      EmitSplits(next, rest, n - 1);
      LastIdJoins(batch, Emit(next, rest[..n - 1]), cursor);
    }
  }

  /**
   * A connection that no round has closed goes on: a further round adds what the log then holds
   * beyond the last written event, at most 100 of it.
   */
  lemma OpenConnectionGoesOn(cursor: nat, polls: seq<Poll>, poll: Poll)
    requires forall i :: 0 <= i < |polls| ==> !Closes(cursor, polls, i)
    ensures var written := Emit(cursor, polls);
      Emit(cursor, polls + [poll]) == written + ListRunEventsAfter(poll.log, LastId(written, cursor), BATCH)
  {
    var all, n := polls + [poll], |polls|;
    assert all[..n] == polls && all[n..] == [poll] && [poll][1..] == [];
    forall i | 0 <= i < n
      ensures !Closes(cursor, all, i)
    {
      assert all[..i] == polls[..i];
      assert !Closes(cursor, polls, i);
    }
    EmitSplits(cursor, all, n);
  }

  /** The first closing round is the last one that writes. */
  lemma ClosedConnectionWritesNothing(cursor: nat, polls: seq<Poll>, n: nat)
    requires n < |polls| && Closes(cursor, polls, n) && forall i :: 0 <= i < n ==> !Closes(cursor, polls, i)
    ensures Emit(cursor, polls) == Emit(cursor, polls[..n]) + Round(cursor, polls, n)
  {
    EmitSplits(cursor, polls, n);
    assert polls[n..][0] == polls[n];
  }

  // ---- Reconnection ----

  /** A connection, and how many of the written events reach the client before it breaks. */
  datatype Connection = Connection(polls: seq<Poll>, reached: nat)

  function Reached(cursor: nat, c: Connection): seq<RunEvent> {
    var out := Emit(cursor, c.polls);
    out[..Min(c.reached, |out|)]
  }

  /** A client that reconnects with the last id it received, none at first. */
  function Received(connections: seq<Connection>): seq<RunEvent> {
    if connections == [] then []
    else
      var before := Received(connections[..|connections| - 1]);
      before + Reached(LastId(before, 0), connections[|connections| - 1])
  }

  predicate AllPrefixesOf(connections: seq<Connection>, log: seq<RunEvent>) {
    forall i :: 0 <= i < |connections| ==> PrefixesOf(connections[i].polls, log)
  }

  lemma {:induction false} ReceivedFollows(log: seq<RunEvent>, connections: seq<Connection>)
    requires WellNumbered(log) && AllPrefixesOf(connections, log)
    ensures Follows(log, 0, Received(connections))
  {
    if connections != [] {
      var n := |connections| - 1;
      ReceivedFollows(log, connections[..n]);
      var before := Received(connections[..n]);
      FollowsLastId(log, 0, before);
      var out := Emit(|before|, connections[n].polls);
      ConnectionEmitsConsecutively(log, |before|, connections[n].polls);
      FollowsTake(log, |before|, out, Min(connections[n].reached, |out|));
      FollowsJoin(log, 0, before, Reached(|before|, connections[n]));
    }
  }

  /**
   * Over any sequence of disconnects and reconnects, what the client has received is a prefix of
   * the run's log: no event is skipped, repeated or out of order.
   */
  lemma ReconnectionHasNoGapOrDuplicate(log: seq<RunEvent>, connections: seq<Connection>)
    requires WellNumbered(log) && AllPrefixesOf(connections, log)
    ensures Received(connections) <= log
  {
    ReceivedFollows(log, connections);
  }

  lemma FollowsTake(log: seq<RunEvent>, cursor: nat, out: seq<RunEvent>, m: nat)
    requires Follows(log, cursor, out) && m <= |out|
    ensures Follows(log, cursor, out[..m])
  {
  }

  /** The rounds of these connections read the log of one run at moments of its history. */
  ghost predicate ReadsHistory(connections: seq<Connection>, steps: seq<Step>) {
    forall i, j :: 0 <= i < |connections| && 0 <= j < |connections[i].polls| ==>
      exists k: nat :: k <= |steps| && connections[i].polls[j].log == RunAll(steps[..k]).run.events
  }

  /** The stream of a real run, read while API, workers and sweepers write, is a prefix of its final log. */
  lemma StreamFollowsTheRun(steps: seq<Step>, connections: seq<Connection>)
    requires ReadsHistory(connections, steps)
    ensures Received(connections) <= RunAll(steps).run.events
    ensures forall i :: 0 <= i < |Received(connections)| ==> Received(connections)[i].sequence == i + 1
  {
    var log := RunAll(steps).run.events;
    EventsAreNumbered(steps);
    forall i, j | 0 <= i < |connections| && 0 <= j < |connections[i].polls|
      ensures connections[i].polls[j].log <= log
    {
      var k: nat :| k <= |steps| && connections[i].polls[j].log == RunAll(steps[..k]).run.events;
      LogIsAppendOnly(steps, k);
    }
    ReconnectionHasNoGapOrDuplicate(log, connections);
  }
}
