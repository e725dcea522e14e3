/** How an attempt left alone ends, from any state of the two stores, and which secrets it leaves behind. */
module ProvisioningOutcome {
  import opened Wrappers
  import opened SecretStore
  import opened Provisioning
  import opened ProvisioningLaws

  // ---- The end of an attempt, read off the state it starts in ----

  /** For an existing project: served as it is, rebuilt from the operation secret, or out of reach. */
  function RecoveryOutcome(w: World, operation: OperationId, p: Project, now: Time): Stage {
    match Read(w.secrets, ConnectionSecret(p.external), now)
    case Ok(_) => Done(ProvisionResult(p.external, ConnectionSecret(p.external), true))
    case Err(SecretNotFound) =>
      (match Read(w.secrets, OperationSecret(operation), now)
       case Ok(PasswordValue(_)) => Done(ProvisionResult(p.external, ConnectionSecret(p.external), true))
       case Err(SecretNotFound) => Orphaned
       case _ => Broken)
    case Err(_) => Broken
  }

  /** For a new project: the password that is already stored, or the fresh one, and a fresh resource. */
  function CreationOutcome(w: World, operation: OperationId, c: Chance): Stage {
    var read := Read(w.secrets, OperationSecret(operation), c.now);
    if (read.Ok? && !read.value.PasswordValue?) || (read.Err? && !read.error.SecretNotFound?) then Broken
    else if c.external in w.used then Broken
    else Done(ProvisionResult(c.external, ConnectionSecret(c.external), false))
  }

  function Outcome(w: World, operation: OperationId, c: Chance): Stage {
    match FindProject(w.projects, operation)
    case Some(p) => RecoveryOutcome(w, operation, p, c.now)
    case None => CreationOutcome(w, operation, c)
  }

  lemma NextCall(w: World, stage: Stage, operation: OperationId, c: Chance, calls: nat)
    requires !Final(stage) && calls > 0
    ensures var (w', stage') := Advance(w, stage, operation, c);
      Attempt(w, stage, operation, c, calls) == Attempt(w', stage', operation, c, calls - 1)
  {
  }

  /** The secrets a finished attempt leaves: its connection, and no operation secret unless nothing had to be done. */
  predicate LeavesClean(w: World, w': World, operation: OperationId, stage: Stage, now: Time) {
    stage.Done? ==>
      var served := ConnectionSecret(stage.result.external);
      if FindProject(w.projects, operation).Some? && Read(w.secrets, served, now).Ok? then w' == w
      else served in w'.secrets && w'.secrets[served].expiresAt.None? && OperationSecret(operation) !in w'.secrets
  }

  lemma RecoveryEnds(w: World, operation: OperationId, p: Project, c: Chance, calls: nat)
    requires calls >= 4
    ensures var (w', stage) := Attempt(w, CheckConnection(p.external), operation, c, calls);
      && stage == RecoveryOutcome(w, operation, p, c.now)
      && (stage.Done? ==>
            if Read(w.secrets, ConnectionSecret(p.external), c.now).Ok? then w' == w
            else
              && ConnectionSecret(p.external) in w'.secrets && w'.secrets[ConnectionSecret(p.external)].expiresAt.None?
              && OperationSecret(operation) !in w'.secrets)
  {
    NextCall(w, CheckConnection(p.external), operation, c, calls);
    var (w1, s1) := Advance(w, CheckConnection(p.external), operation, c);
    if s1.ReadForRecovery? {
      NextCall(w1, s1, operation, c, calls - 1);
      var (w2, s2) := Advance(w1, s1, operation, c);
      if s2.StoreRecovered? {
        NextCall(w2, s2, operation, c, calls - 2);
        var (w3, s3) := Advance(w2, s2, operation, c);
        NextCall(w3, s3, operation, c, calls - 3);
      }
    }
  }

  lemma CreationEnds(w: World, operation: OperationId, c: Chance, calls: nat)
    requires calls >= 4 && Read(w.secrets, OperationSecret(operation), c.now).Ok?
    requires Read(w.secrets, OperationSecret(operation), c.now).value.PasswordValue?
    ensures var (w', stage) := Attempt(w, ReadOperationSecret, operation, c, calls);
      if c.external in w.used then stage.Broken?
      else
        && stage == Done(ProvisionResult(c.external, ConnectionSecret(c.external), false))
        && ConnectionSecret(c.external) in w'.secrets && w'.secrets[ConnectionSecret(c.external)].expiresAt.None?
        && OperationSecret(operation) !in w'.secrets
  {
    NextCall(w, ReadOperationSecret, operation, c, calls);
    var (w1, s1) := Advance(w, ReadOperationSecret, operation, c);
    NextCall(w1, s1, operation, c, calls - 1);
    var (w2, s2) := Advance(w1, s1, operation, c);
    if s2.StoreConnection? {
      NextCall(w2, s2, operation, c, calls - 2);
      var (w3, s3) := Advance(w2, s2, operation, c);
      NextCall(w3, s3, operation, c, calls - 3);
    }
  }

  lemma CheckedCreationEnds(w: World, operation: OperationId, c: Chance, calls: nat)
    requires calls >= 6
    ensures var (w', stage) := Attempt(w, CheckOperationSecret, operation, c, calls);
      && stage == CreationOutcome(w, operation, c)
      && (stage.Done? ==>
            && ConnectionSecret(c.external) in w'.secrets && w'.secrets[ConnectionSecret(c.external)].expiresAt.None?
            && OperationSecret(operation) !in w'.secrets)
  {
    NextCall(w, CheckOperationSecret, operation, c, calls);
    var (w1, s1) := Advance(w, CheckOperationSecret, operation, c);
    if s1.ReadOperationSecret? {
      if Read(w.secrets, OperationSecret(operation), c.now).value.PasswordValue? {
        CreationEnds(w1, operation, c, calls - 1);
      } else {
        NextCall(w1, s1, operation, c, calls - 1);
      }
    } else if s1.StoreOperationSecret? {
      NextCall(w1, s1, operation, c, calls - 1);
      var (w2, s2) := Advance(w1, s1, operation, c);
      CreationEnds(w2, operation, c, calls - 2);
    }
  }

  /**
   * From any state of provider and secret store, safe or not, an attempt that is not cut off ends as
   * that state says: it reports an existing project as reconciled and a new one as not, calls a
   * project whose both secrets are gone orphaned, and breaks on an expired or foreign secret. It
   * revokes the operation secret unless the connection was already there.
   */
  lemma AttemptEndsAsItsStateSays(w: World, operation: OperationId, c: Chance, calls: nat)
    requires calls >= 7
    ensures var (w', stage) := Attempt(w, Listing, operation, c, calls);
      stage == Outcome(w, operation, c) && LeavesClean(w, w', operation, stage, c.now)
  {
    NextCall(w, Listing, operation, c, calls);
    match FindProject(w.projects, operation)
    case Some(p) => RecoveryEnds(w, operation, p, c, calls - 1);
    case None => CheckedCreationEnds(w, operation, c, calls - 1);
  }

  // ---- A stored password is never replaced ----

  /** A fresh password is only ever stored where none is. */
  predicate StoresOnlyWhereNone(s: System, operation: OperationId) {
    s.stage.StoreOperationSecret? ==> OperationSecret(operation) !in s.world.secrets
  }

  lemma EventStoresOnlyWhereNone(s: System, operation: OperationId, e: Event)
    requires StoresOnlyWhereNone(s, operation)
    ensures StoresOnlyWhereNone(Apply(s, operation, e), operation)
  {
  }

  lemma {:induction false} AlwaysStoresOnlyWhereNone(w: World, operation: OperationId, events: seq<Event>)
    ensures StoresOnlyWhereNone(Run(System(w, Cut, 0, []), operation, events), operation)
  {
    if events != [] {
      AlwaysStoresOnlyWhereNone(w, operation, events[..|events| - 1]);
      EventStoresOnlyWhereNone(Run(System(w, Cut, 0, []), operation, events[..|events| - 1]), operation,
        events[|events| - 1]);
    }
  }

  /**
   * Whatever attempts are cut off and started again, the operation's stored password is kept until it
   * is revoked: a project created by an earlier attempt never loses the password it was given.
   */
  lemma StoredPasswordIsNeverReplaced(w: World, operation: OperationId, events: seq<Event>, e: Event)
    requires var s := Run(System(w, Cut, 0, []), operation, events);
      && OperationSecret(operation) in s.world.secrets
      && OperationSecret(operation) in Apply(s, operation, e).world.secrets
    ensures var s := Run(System(w, Cut, 0, []), operation, events);
      Apply(s, operation, e).world.secrets[OperationSecret(operation)] == s.world.secrets[OperationSecret(operation)]
  {
    AlwaysStoresOnlyWhereNone(w, operation, events);
  }

  // ---- Leases ----

  /** A lease reads as its value strictly before its end, is expired from then on, and is gone once that has been seen. */
  lemma LeaseRunsOut(secrets: Secrets, id: nat, value: SecretValue, end: Time, now: Time, later: Time)
    requires Lease(id) in secrets && secrets[Lease(id)] == Stored(value, Some(end))
    ensures Read(secrets, Lease(id), now) == if now < end then Ok(value) else Err(SecretExpired)
    ensures now >= end ==> Read(AfterRead(secrets, Lease(id), now), Lease(id), later) == Err(SecretNotFound)
    ensures forall other :: other != Lease(id) && other in secrets ==>
      other in AfterRead(secrets, Lease(id), now) && AfterRead(secrets, Lease(id), now)[other] == secrets[other]
  {
  }
}
