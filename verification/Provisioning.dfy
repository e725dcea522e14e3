/** Crash-safe provisioning: a multi-step write over two stores with no transaction. */
module Provisioning {
  import opened Wrappers
  import opened SecretStore

  /** A provider project. Names are one-to-one with operations inside our organisation. */
  datatype Project = Project(external: ExternalId, ours: bool, name: OperationId, password: Password)

  /** `used` remembers every external id the provider ever handed out; it never reuses one. */
  datatype World = World(projects: seq<Project>, secrets: Secrets, used: set<ExternalId>)

  datatype ProvisionResult = ProvisionResult(external: ExternalId, secret: Reference, reconciled: bool)

  /** Where an attempt stands; every stage but the last four is one outside call away from the next. */
  datatype Stage =
    | Listing
    | CheckOperationSecret
    | StoreOperationSecret
    | ReadOperationSecret
    | CreateProject(password: Password)
    | StoreConnection(external: ExternalId, password: Password)
    | RevokeOperation(external: ExternalId)
    | CheckConnection(external: ExternalId)
    | ReadForRecovery(external: ExternalId)
    | StoreRecovered(external: ExternalId, password: Password)
    | RevokeRecovered(external: ExternalId)
    | Done(result: ProvisionResult)
    | Orphaned
    | Broken
    | Cut

  predicate Final(stage: Stage) {
    stage.Done? || stage.Orphaned? || stage.Broken? || stage.Cut?
  }

  function FindProject(projects: seq<Project>, operation: OperationId): Option<Project> {
    if projects == [] then None
    else if projects[0].ours && projects[0].name == operation then Some(projects[0])
    else FindProject(projects[1..], operation)
  }

  /** What the outside world picks: a random password, a fresh external id, the clock. */
  datatype Chance = Chance(password: Password, external: ExternalId, now: Time)

  function PutSecret(w: World, r: Reference, v: SecretValue): World {
    w.(secrets := w.secrets[r := Stored(v, None)])
  }

  /** One outside call of an attempt for `operation`. */
  function Advance(w: World, stage: Stage, operation: OperationId, c: Chance): (World, Stage) {
    match stage
    case Listing =>
      var found := FindProject(w.projects, operation);
      (w, if found.Some? then CheckConnection(found.value.external) else CheckOperationSecret)
    case CheckOperationSecret =>
      var read := Read(w.secrets, OperationSecret(operation), c.now);
      (w.(secrets := AfterRead(w.secrets, OperationSecret(operation), c.now)),
       if read.Ok? then ReadOperationSecret
       else if read.error.SecretNotFound? then StoreOperationSecret else Broken)
    case StoreOperationSecret =>
      (PutSecret(w, OperationSecret(operation), PasswordValue(c.password)), ReadOperationSecret)
    case ReadOperationSecret =>
      var read := Read(w.secrets, OperationSecret(operation), c.now);
      (w.(secrets := AfterRead(w.secrets, OperationSecret(operation), c.now)),
       if read.Ok? && read.value.PasswordValue? then CreateProject(read.value.password) else Broken)
    case CreateProject(password) =>
      if c.external in w.used then (w, Broken)
      else
        (World(w.projects + [Project(c.external, true, operation, password)], w.secrets, w.used + {c.external}),
         StoreConnection(c.external, password))
    case StoreConnection(external, password) =>
      (PutSecret(w, ConnectionSecret(external), ConnectionUri(external, password)), RevokeOperation(external))
    case RevokeOperation(external) =>
      (w.(secrets := w.secrets - {OperationSecret(operation)}),
       Done(ProvisionResult(external, ConnectionSecret(external), false)))
    case CheckConnection(external) =>
      var read := Read(w.secrets, ConnectionSecret(external), c.now);
      (w.(secrets := AfterRead(w.secrets, ConnectionSecret(external), c.now)),
       if read.Ok? then Done(ProvisionResult(external, ConnectionSecret(external), true))
       else if read.error.SecretNotFound? then ReadForRecovery(external) else Broken)
    case ReadForRecovery(external) =>
      var read := Read(w.secrets, OperationSecret(operation), c.now);
      (w.(secrets := AfterRead(w.secrets, OperationSecret(operation), c.now)),
       if read.Ok? && read.value.PasswordValue? then StoreRecovered(external, read.value.password)
       else if read.Err? && read.error.SecretNotFound? then Orphaned else Broken)
    case StoreRecovered(external, password) =>
      (PutSecret(w, ConnectionSecret(external), ConnectionUri(external, password)), RevokeRecovered(external))
    case RevokeRecovered(external) =>
      (w.(secrets := w.secrets - {OperationSecret(operation)}),
       Done(ProvisionResult(external, ConnectionSecret(external), true)))
    case _ => (w, stage)
  }

  /** An attempt that is cut off after at most `calls` outside calls. */
  function Attempt(w: World, stage: Stage, operation: OperationId, c: Chance, calls: nat): (World, Stage)
    decreases calls
  {
    if Final(stage) then (w, stage)
    else if calls == 0 then (w, Cut)
    else
      var (w', stage') := Advance(w, stage, operation, c);
      Attempt(w', stage', operation, c, calls - 1)
  }

  /** The provider adapter over its two stores. */
  class SupabaseDatabaseProvider {
    var projects: seq<Project>
    var used: set<ExternalId>
    const store: InMemorySecretStore

    constructor (store: InMemorySecretStore)
      ensures this.store == store && projects == [] && used == {}
    {
      this.store, projects, used := store, [], {};
    }

    function State(): World
      reads this, store
    {
      World(projects, store.values, used)
    }

    /** The listing request: it reads the project list and changes nothing. */
    method Find(operation: OperationId) returns (r: Option<Project>)
      ensures r == FindProject(projects, operation)
    {
      for i := 0 to |projects|
        invariant FindProject(projects, operation) == FindProject(projects[i..], operation)
      {
        assert projects[i..][1..] == projects[i + 1..];
        if projects[i].ours && projects[i].name == operation {
          return Some(projects[i]);
        }
      }
      r := None;
    }

    /** `provision`, cut off after `calls` outside calls. */
    method Provision(operation: OperationId, c: Chance, calls: nat) returns (r: Stage)
      modifies this, store
      ensures (State(), r) == Attempt(old(State()), Listing, operation, c, calls)
    {
      if calls == 0 {
        return Cut;
      }
      var existing := Find(operation);
      ghost var goal := Attempt(State(), Listing, operation, c, calls);
      if existing.Some? {
        assert goal == Attempt(State(), CheckConnection(existing.value.external), operation, c, calls - 1);
        r := RecoverExisting(operation, existing.value.external, c, calls - 1);
        return;
      }
      assert goal == Attempt(State(), CheckOperationSecret, operation, c, calls - 1);
      var ensured, left := EnsureOperationSecret(operation, c, calls - 1);
      assert goal == Attempt(State(), ensured, operation, c, left);
      if Final(ensured) {
        return ensured;
      }
      r := CreateNew(operation, c, left);
    }

    /** Reads the operation secret, or stores a fresh password under it. */
    method EnsureOperationSecret(operation: OperationId, c: Chance, calls: nat) returns (r: Stage, left: nat)
      modifies store
      ensures Attempt(old(State()), CheckOperationSecret, operation, c, calls) == Attempt(State(), r, operation, c, left)
      ensures Final(r) || r == ReadOperationSecret
    {
      if calls == 0 {
        return Cut, 0;
      }
      ghost var goal := Attempt(State(), CheckOperationSecret, operation, c, calls);
      var known := store.Get(OperationSecret(operation), c.now);
      if known.Ok? {
        return ReadOperationSecret, calls - 1;
      }
      if !known.error.SecretNotFound? {
        return Broken, calls - 1;
      }
      assert goal == Attempt(State(), StoreOperationSecret, operation, c, calls - 1);
      if calls == 1 {
        return Cut, 0;
      }
      var _ := store.Put(OperationSecret(operation), PasswordValue(c.password), None);
      return ReadOperationSecret, calls - 2;
    }

    /** The rest of `provision` when no project exists yet. */
    method CreateNew(operation: OperationId, c: Chance, calls: nat) returns (r: Stage)
      modifies this, store
      ensures (State(), r) == Attempt(old(State()), ReadOperationSecret, operation, c, calls)
    {
      if calls == 0 {
        return Cut;
      }
      ghost var goal := Attempt(State(), ReadOperationSecret, operation, c, calls);
      var read := store.Get(OperationSecret(operation), c.now);
      if read.Err? || !read.value.PasswordValue? {
        assert goal == Attempt(State(), Broken, operation, c, calls - 1);
        return Broken;
      }
      var password := read.value.password;
      assert goal == Attempt(State(), CreateProject(password), operation, c, calls - 1);
      if calls == 1 {
        return Cut;
      }
      if c.external in used {
        assert goal == Attempt(State(), Broken, operation, c, calls - 2);
        return Broken;
      }
      projects := projects + [Project(c.external, true, operation, password)];
      used := used + {c.external};
      assert goal == Attempt(State(), StoreConnection(c.external, password), operation, c, calls - 2);
      if calls == 2 {
        return Cut;
      }
      var reference := store.Put(ConnectionSecret(c.external), ConnectionUri(c.external, password), None);
      assert goal == Attempt(State(), RevokeOperation(c.external), operation, c, calls - 3);
      if calls == 3 {
        return Cut;
      }
      store.Revoke(OperationSecret(operation));
      r := Done(ProvisionResult(c.external, reference, false));
      assert goal == Attempt(State(), r, operation, c, calls - 4);
    }

    /** `#recoverExisting`: never overwrites a connection secret that is there. */
    method RecoverExisting(operation: OperationId, external: ExternalId, c: Chance, calls: nat) returns (r: Stage)
      modifies this, store
      ensures (State(), r) == Attempt(old(State()), CheckConnection(external), operation, c, calls)
    {
      if calls == 0 {
        return Cut;
      }
      ghost var goal := Attempt(State(), CheckConnection(external), operation, c, calls);
      var persistent := store.Get(ConnectionSecret(external), c.now);
      if persistent.Ok? {
        return Done(ProvisionResult(external, ConnectionSecret(external), true));
      }
      if !persistent.error.SecretNotFound? {
        assert goal == Attempt(State(), Broken, operation, c, calls - 1);
        return Broken;
      }
      assert goal == Attempt(State(), ReadForRecovery(external), operation, c, calls - 1);
      if calls == 1 {
        return Cut;
      }
      var read := store.Get(OperationSecret(operation), c.now);
      if read.Err? {
        r := if read.error.SecretNotFound? then Orphaned else Broken;
        assert goal == Attempt(State(), r, operation, c, calls - 2);
        return;
      }
      if !read.value.PasswordValue? {
        assert goal == Attempt(State(), Broken, operation, c, calls - 2);
        return Broken;
      }
      var password := read.value.password;
      assert goal == Attempt(State(), StoreRecovered(external, password), operation, c, calls - 2);
      if calls == 2 {
        return Cut;
      }
      var reference := store.Put(ConnectionSecret(external), ConnectionUri(external, password), None);
      assert goal == Attempt(State(), RevokeRecovered(external), operation, c, calls - 3);
      if calls == 3 {
        return Cut;
      }
      store.Revoke(OperationSecret(operation));
      r := Done(ProvisionResult(external, reference, true));
      assert goal == Attempt(State(), r, operation, c, calls - 4);
    }
  }
}
