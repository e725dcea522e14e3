/** One project per operation, and its own password behind every reference handed out. */
module ProvisioningLaws {
  import opened Wrappers
  import opened SecretStore
  import opened Provisioning

  /**
   * What happens while one operation is being provisioned by sequential attempts:
   * an attempt starts, makes its next outside call, or dies; a call may also take
   * effect with its answer lost; and other operations go about their business.
   */
  datatype Event =
    | Start
    | Call(c: Chance)
    | LostAnswer(c: Chance)
    | Crash
    | ForeignProject(project: Project)
    | ForeignSecret(reference: Reference, stored: Stored)
    | ForeignRevoke(reference: Reference)

  datatype System = System(world: World, stage: Stage, created: nat, results: seq<ProvisionResult>)

  predicate IsMine(p: Project, operation: OperationId) {
    p.ours && p.name == operation
  }

  /** Secrets of other operations: not this operation's, nor its project's connection. */
  predicate Foreign(w: World, reference: Reference, operation: OperationId) {
    match reference
    case OperationSecret(o) => o != operation
    case ConnectionSecret(e) => e in w.used && forall p :: p in w.projects && p.external == e ==> !IsMine(p, operation)
    case Lease(_) => true
  }

  function Took(s: System, operation: OperationId, c: Chance): System {
    var (world, stage) := Advance(s.world, s.stage, operation, c);
    System(world, stage, s.created + (|world.projects| - |s.world.projects|),
           if stage.Done? && !s.stage.Done? then s.results + [stage.result] else s.results)
  }

  function Apply(s: System, operation: OperationId, e: Event): System {
    match e
    case Start => if Final(s.stage) then s.(stage := Listing) else s
    case Call(c) => if Final(s.stage) then s else Took(s, operation, c)
    case LostAnswer(c) => if Final(s.stage) then s else Took(s, operation, c).(stage := Cut, results := s.results)
    case Crash => s.(stage := Cut)
    case ForeignProject(p) =>
      if IsMine(p, operation) || p.external in s.world.used then s
      else s.(world := World(s.world.projects + [p], s.world.secrets, s.world.used + {p.external}))
    case ForeignSecret(r, stored) =>
      if Foreign(s.world, r, operation) then s.(world := s.world.(secrets := s.world.secrets[r := stored])) else s
    case ForeignRevoke(r) =>
      if Foreign(s.world, r, operation) then s.(world := s.world.(secrets := s.world.secrets - {r})) else s
  }

  function Run(s: System, operation: OperationId, events: seq<Event>): System {
    if events == [] then s
    else Apply(Run(s, operation, events[..|events| - 1]), operation, events[|events| - 1])
  }

  // ---- The invariant ----

  /** The operation's project, if it was created: exactly this one. */
  ghost predicate Unique(w: World, operation: OperationId, mine: Option<Project>) {
    && (mine.Some? ==> mine.value in w.projects && IsMine(mine.value, operation))
    && (forall p :: p in w.projects && IsMine(p, operation) ==> mine == Some(p))
    && (forall p, q :: p in w.projects && q in w.projects && p.external == q.external ==> p == q)
    && (forall p :: p in w.projects ==> p.external in w.used)
    && (forall e :: ConnectionSecret(e) in w.secrets ==> e in w.used)
  }

  predicate Holds(w: World, r: Reference, v: SecretValue) {
    r in w.secrets && w.secrets[r] == Stored(v, None)
  }

  predicate ConnectionRight(w: World, p: Project) {
    Holds(w, ConnectionSecret(p.external), ConnectionUri(p.external, p.password))
  }

  predicate OperationRight(w: World, operation: OperationId, p: Project) {
    Holds(w, OperationSecret(operation), PasswordValue(p.password))
  }

  /** "Connection secret right, or operation secret equals the project's password." */
  predicate Recoverable(w: World, operation: OperationId, mine: Option<Project>) {
    match mine
    case Some(p) =>
      if ConnectionSecret(p.external) in w.secrets then ConnectionRight(w, p) else OperationRight(w, operation, p)
    case None =>
      OperationSecret(operation) in w.secrets ==>
        w.secrets[OperationSecret(operation)].value.PasswordValue? && w.secrets[OperationSecret(operation)].expiresAt.None?
  }

  /** What an attempt in progress knows. */
  predicate StageRight(w: World, stage: Stage, operation: OperationId, mine: Option<Project>) {
    match stage
    case CheckOperationSecret => mine.None?
    case StoreOperationSecret => mine.None?
    case ReadOperationSecret => mine.None? && OperationSecret(operation) in w.secrets
    case CreateProject(password) => mine.None? && Holds(w, OperationSecret(operation), PasswordValue(password))
    case StoreConnection(e, password) =>
      mine.Some? && mine.value.external == e && mine.value.password == password
    case RevokeOperation(e) => mine.Some? && mine.value.external == e && ConnectionRight(w, mine.value)
    case CheckConnection(e) => mine.Some? && mine.value.external == e
    case ReadForRecovery(e) =>
      mine.Some? && mine.value.external == e && ConnectionSecret(e) !in w.secrets
    case StoreRecovered(e, password) =>
      mine.Some? && mine.value.external == e && mine.value.password == password
    case RevokeRecovered(e) => mine.Some? && mine.value.external == e && ConnectionRight(w, mine.value)
    case Orphaned => false
    case _ => true
  }

  ghost predicate ResultRight(w: World, operation: OperationId, mine: Option<Project>, r: ProvisionResult) {
    mine.Some? && r.external == mine.value.external && r.secret == ConnectionSecret(r.external)
    && ConnectionRight(w, mine.value)
  }

  /** `mine` is the operation's project, once it was created. */
  ghost predicate Safe(s: System, operation: OperationId, mine: Option<Project>) {
    && Unique(s.world, operation, mine)
    && Recoverable(s.world, operation, mine)
    && StageRight(s.world, s.stage, operation, mine)
    && s.created == (if mine.Some? then 1 else 0)
    && (forall i :: 0 <= i < |s.results| ==> ResultRight(s.world, operation, mine, s.results[i]))
  }

  lemma {:induction false} FindIsMine(projects: seq<Project>, operation: OperationId)
    ensures FindProject(projects, operation).Some? ==>
      FindProject(projects, operation).value in projects && IsMine(FindProject(projects, operation).value, operation)
    ensures FindProject(projects, operation).None? ==> forall p :: p in projects ==> !IsMine(p, operation)
  {
    if projects != [] && !IsMine(projects[0], operation) {
      FindIsMine(projects[1..], operation);
      assert projects == [projects[0]] + projects[1..];
    }
  }

  function MineAfter(s: System, operation: OperationId, e: Event, mine: Option<Project>): Option<Project> {
    if (e.Call? || e.LostAnswer?) && s.stage.CreateProject? && e.c.external !in s.world.used
    then Some(Project(e.c.external, true, operation, s.stage.password)) else mine
  }

  lemma ListingKeepsSafe(s: System, operation: OperationId, c: Chance, mine: Option<Project>)
    requires Safe(s, operation, mine) && s.stage.Listing?
    ensures Safe(Took(s, operation, c), operation, mine)
  {
    FindIsMine(s.world.projects, operation);
  }

  lemma CreateKeepsSafe(s: System, operation: OperationId, c: Chance, mine: Option<Project>)
    requires Safe(s, operation, mine) && s.stage.CreateProject?
    ensures Safe(Took(s, operation, c), operation, MineAfter(s, operation, Call(c), mine))
  {
  }

  /** Every other outside call leaves the project list alone. */
  lemma CallKeepsSafe(s: System, operation: OperationId, c: Chance, mine: Option<Project>)
    requires Safe(s, operation, mine) && !s.stage.CreateProject? && !s.stage.Listing? && !Final(s.stage)
    ensures Safe(Took(s, operation, c), operation, mine)
  {
  }

  lemma ForeignKeepsSafe(s: System, operation: OperationId, e: Event, mine: Option<Project>)
    requires Safe(s, operation, mine) && (e.ForeignProject? || e.ForeignSecret? || e.ForeignRevoke?)
    ensures Safe(Apply(s, operation, e), operation, mine)
  {
    if e.ForeignProject? {
      var next := Apply(s, operation, e);
      forall q | q in next.world.projects
        ensures q == e.project || q in s.world.projects
      {
      }
      if mine.Some? {
        assert mine.value in next.world.projects by {
          var i :| 0 <= i < |s.world.projects| && s.world.projects[i] == mine.value;
          assert next.world.projects[i] == mine.value;
        }
      }
    }
  }

  lemma EventKeepsSafe(s: System, operation: OperationId, e: Event, mine: Option<Project>)
    requires Safe(s, operation, mine)
    ensures Safe(Apply(s, operation, e), operation, MineAfter(s, operation, e, mine))
  {
    match e
    case Start =>
    case Crash =>
    case ForeignProject(_) => ForeignKeepsSafe(s, operation, e, mine);
    case ForeignSecret(_, _) => ForeignKeepsSafe(s, operation, e, mine);
    case ForeignRevoke(_) => ForeignKeepsSafe(s, operation, e, mine);
    case Call(c) => CallOrCreate(s, operation, c, mine);
    case LostAnswer(c) =>
      CallOrCreate(s, operation, c, mine);
      if !Final(s.stage) {
        LostKeepsResults(s, operation, c, MineAfter(s, operation, e, mine));
      }
  }

  lemma LostKeepsResults(s: System, operation: OperationId, c: Chance, mine: Option<Project>)
    requires !Final(s.stage) && Safe(Took(s, operation, c), operation, mine)
    ensures Safe(Took(s, operation, c).(stage := Cut, results := s.results), operation, mine)
  {
    var took := Took(s, operation, c);
    forall i | 0 <= i < |s.results|
      ensures ResultRight(took.world, operation, mine, s.results[i])
    {
      assert took.results[i] == s.results[i];
    }
  }

  lemma CallOrCreate(s: System, operation: OperationId, c: Chance, mine: Option<Project>)
    requires Safe(s, operation, mine)
    ensures !Final(s.stage) ==> Safe(Took(s, operation, c), operation, MineAfter(s, operation, Call(c), mine))
  {
    if !Final(s.stage) {
      if s.stage.Listing? {
        ListingKeepsSafe(s, operation, c, mine);
      } else if s.stage.CreateProject? {
        CreateKeepsSafe(s, operation, c, mine);
      } else {
        CallKeepsSafe(s, operation, c, mine);
      }
    }
  }

  /** A world in which the operation has not been provisioned before. */
  ghost predicate Untouched(w: World, operation: OperationId) {
    Unique(w, operation, None) && OperationSecret(operation) !in w.secrets
  }

  // ---- The main results ----

  lemma {:induction false} AlwaysSafe(w: World, operation: OperationId, events: seq<Event>)
    requires Untouched(w, operation)
    ensures exists mine :: Safe(Run(System(w, Cut, 0, []), operation, events), operation, mine)
  {
    if events == [] {
      assert Run(System(w, Cut, 0, []), operation, events) == System(w, Cut, 0, []);
      assert Safe(Run(System(w, Cut, 0, []), operation, events), operation, None);
    } else {
      var prefix := events[..|events| - 1];
      AlwaysSafe(w, operation, prefix);
      var s := Run(System(w, Cut, 0, []), operation, prefix);
      var mine :| Safe(s, operation, mine);
      var last := events[|events| - 1];
      EventKeepsSafe(s, operation, last, mine);
      assert Safe(Run(System(w, Cut, 0, []), operation, events), operation, MineAfter(s, operation, last, mine));
    }
  }

  /** The reference holds the URI of the operation's own project with that project's own password. */
  ghost predicate Serves(w: World, operation: OperationId, r: ProvisionResult) {
    exists i :: 0 <= i < |w.projects| && IsMine(w.projects[i], operation) && w.projects[i].external == r.external
      && Holds(w, r.secret, ConnectionUri(r.external, w.projects[i].password))
  }

  /**
   * However often attempts are cut off, lose answers and start again: at most one project is
   * created, ORPHANED_DATABASE_SECRET is never raised, and every reference ever returned
   * now holds the connection URI with that project's own password.
   */
  lemma ProvisioningIsCrashSafe(w: World, operation: OperationId, events: seq<Event>)
    requires Untouched(w, operation)
    ensures var s := Run(System(w, Cut, 0, []), operation, events);
      && s.created <= 1
      && !s.stage.Orphaned?
      && forall i :: 0 <= i < |s.results| ==> Serves(s.world, operation, s.results[i])
  {
    AlwaysSafe(w, operation, events);
    var s := Run(System(w, Cut, 0, []), operation, events);
    var mine :| Safe(s, operation, mine);
    forall i | 0 <= i < |s.results|
      ensures Serves(s.world, operation, s.results[i])
    {
      assert ResultRight(s.world, operation, mine, s.results[i]);
      assert mine.value in s.world.projects;
    }
  }

  /** From any safe state an attempt left alone succeeds; so a crash never has to be repaired by hand. */
  lemma AttemptLeftAloneSucceeds(s: System, operation: OperationId, mine: Option<Project>, c: Chance)
    requires Safe(s, operation, mine) && c.external !in s.world.used
    ensures Attempt(s.world, Listing, operation, c, 7).1.Done?
    ensures mine.Some? ==> Attempt(s.world, Listing, operation, c, 7).1.result.external == mine.value.external
  {
    FindIsMine(s.world.projects, operation);
    var w0 := s.world;
    var (w1, s1) := Advance(w0, Listing, operation, c);
    var (w2, s2) := Advance(w1, s1, operation, c);
    assert Attempt(w0, Listing, operation, c, 7) == Attempt(w1, s1, operation, c, 6);
    assert Attempt(w1, s1, operation, c, 6) == Attempt(w2, s2, operation, c, 5);
    if mine.Some? {
      if !s2.Done? {
        var (w3, s3) := Advance(w2, s2, operation, c);
        var (w4, s4) := Advance(w3, s3, operation, c);
        assert Attempt(w2, s2, operation, c, 5) == Attempt(w3, s3, operation, c, 4);
        assert Attempt(w3, s3, operation, c, 4) == Attempt(w4, s4, operation, c, 3);
      }
    } else {
      if s2.StoreOperationSecret? {
        var (w3, s3) := Advance(w2, s2, operation, c);
        assert Attempt(w2, s2, operation, c, 5) == Attempt(w3, s3, operation, c, 4);
        CreatePathSucceeds(w3, operation, c, 4);
      } else {
        CreatePathSucceeds(w2, operation, c, 5);
      }
    }
  }

  lemma CreatePathSucceeds(w: World, operation: OperationId, c: Chance, calls: nat)
    requires calls >= 4 && c.external !in w.used
    requires OperationSecret(operation) in w.secrets
    requires w.secrets[OperationSecret(operation)].value.PasswordValue? && w.secrets[OperationSecret(operation)].expiresAt.None?
    ensures Attempt(w, ReadOperationSecret, operation, c, calls).1.Done?
  {
    var (w1, s1) := Advance(w, ReadOperationSecret, operation, c);
    var (w2, s2) := Advance(w1, s1, operation, c);
    var (w3, s3) := Advance(w2, s2, operation, c);
    assert Attempt(w, ReadOperationSecret, operation, c, calls) == Attempt(w1, s1, operation, c, calls - 1);
    assert Attempt(w1, s1, operation, c, calls - 1) == Attempt(w2, s2, operation, c, calls - 2);
    assert Attempt(w2, s2, operation, c, calls - 2) == Attempt(w3, s3, operation, c, calls - 3);
    var (w4, s4) := Advance(w3, s3, operation, c);
    assert Attempt(w3, s3, operation, c, calls - 3) == Attempt(w4, s4, operation, c, calls - 4);
  }
}
