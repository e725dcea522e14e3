/** The secret-store contract, as the in-memory store keeps it. */
module SecretStore {
  import opened Wrappers

  type OperationId = nat
  type ExternalId = nat
  type Password = nat
  type Time = int

  /** References are one-to-one with the keys the provider builds. */
  datatype Reference =
    | OperationSecret(operation: OperationId)
    | ConnectionSecret(external: ExternalId)
    | Lease(id: nat)

  datatype SecretValue = PasswordValue(password: Password) | ConnectionUri(host: ExternalId, login: Password)

  datatype Stored = Stored(value: SecretValue, expiresAt: Option<Time>)

  type Secrets = map<Reference, Stored>

  datatype SecretError = SecretNotFound | SecretExpired | BadLeaseTtl

  const MIN_LEASE_MS: int := 60_000
  const MAX_LEASE_MS: int := 3_600_000

  function Read(secrets: Secrets, reference: Reference, now: Time): Result<SecretValue, SecretError> {
    if reference !in secrets then Err(SecretNotFound)
    else
      var s := secrets[reference];
      if s.expiresAt.Some? && s.expiresAt.value <= now then Err(SecretExpired) else Ok(s.value)
  }

  /** An expired secret is dropped by the read that finds it. */
  function AfterRead(secrets: Secrets, reference: Reference, now: Time): Secrets {
    if Read(secrets, reference, now) == Err(SecretExpired) then secrets - {reference} else secrets
  }

  class InMemorySecretStore {
    var values: Secrets

    constructor ()
      ensures values == map[]
    {
      values := map[];
    }

    method Put(reference: Reference, value: SecretValue, expiresAt: Option<Time>) returns (r: Reference)
      modifies this
      ensures values == old(values)[reference := Stored(value, expiresAt)] && r == reference
    {
      values := values[reference := Stored(value, expiresAt)];
      r := reference;
    }

    method Get(reference: Reference, now: Time) returns (r: Result<SecretValue, SecretError>)
      modifies this
      ensures r == Read(old(values), reference, now)
      ensures values == AfterRead(old(values), reference, now)
    {
      if reference !in values {
        return Err(SecretNotFound);
      }
      var secret := values[reference];
      if secret.expiresAt.Some? && secret.expiresAt.value <= now {
        values := values - {reference};
        return Err(SecretExpired);
      }
      r := Ok(secret.value);
    }

    method Revoke(reference: Reference)
      modifies this
      ensures values == old(values) - {reference}
    {
      values := values - {reference};
    }

    /** A lease under a fresh id reads as the source does, until its time is up. */
    method CreateLease(source: Reference, ttlMs: int, now: Time, id: nat) returns (r: Result<Reference, SecretError>)
      requires Lease(id) !in values
      modifies this
      ensures ttlMs < MIN_LEASE_MS || ttlMs > MAX_LEASE_MS ==> r == Err(BadLeaseTtl) && values == old(values)
      ensures MIN_LEASE_MS <= ttlMs <= MAX_LEASE_MS ==>
        match Read(old(values), source, now)
        case Err(e) => r == Err(e) && values == AfterRead(old(values), source, now)
        case Ok(v) =>
          && r == Ok(Lease(id))
          && values == old(values)[Lease(id) := Stored(v, Some(now + ttlMs))]
    {
      if ttlMs < MIN_LEASE_MS || ttlMs > MAX_LEASE_MS {
        return Err(BadLeaseTtl);
      }
      var value := Get(source, now);
      if value.Err? {
        return Err(value.error);
      }
      var reference := Put(Lease(id), value.value, Some(now + ttlMs));
      r := Ok(reference);
    }
  }
}
