/** Conversions between Storage resources and the API, and the Secret that
    holds a Postgres storage's connection settings. */
module StorageConverters {
  import opened Wrappers
  import opened Strings
  import opened Kube
  import Api = GqlModel
  import Crd = CloudApi

  /** The API status of a stored storage state: none means NOT_DEPLOYED and
      the four declared states map to themselves. */
  function StorageStatusOf(state: Option<string>): (r: Result<string>)
    ensures state.None? ==> r == Ok(Api.StorageStatusNotDeployed)
    ensures state.Some? ==>
      (r.Ok? <==> state.value in {Crd.StorageStateNotDeployed, Crd.StorageStateDeploying,
                                  Crd.StorageStateReady, Crd.StorageStateError})
    ensures state.Some? && r.Ok? ==> r.value == state.value
    ensures r.Ok? ==> Api.IsValid(Api.StorageStatus, r.value)
    ensures r.Err? ==> r.error == Message("unknown storage state: " + state.value)
  {
    match state
    case None => Ok(Api.StorageStatusNotDeployed)
    case Some(s) =>
      if s == Crd.StorageStateNotDeployed then Ok(Api.StorageStatusNotDeployed)
      else if s == Crd.StorageStateDeploying then Ok(Api.StorageStatusDeploying)
      else if s == Crd.StorageStateReady then Ok(Api.StorageStatusReady)
      else if s == Crd.StorageStateError then Ok(Api.StorageStatusError)
      else Err(Message("unknown storage state: " + s))
  }

  predicate IsStorageType(t: string)
  {
    t == Crd.StorageTypeRedis || t == Crd.StorageTypePostgres || t == Crd.StorageTypeElasticsearch
  }

  /** `StorageCRDToModel`.  The API name is the object's name, not
      `Spec.Name`. */
  function StorageCrdToModel(s: Crd.Storage): (r: Result<Api.Storage>)
    ensures !IsStorageType(s.spec.typ) ==> r == Err(Message("unknown storage type: " + s.spec.typ))
    ensures r.Ok? <==> IsStorageType(s.spec.typ) && StorageStatusOf(s.status.state).Ok?
    ensures r.Ok? ==>
      r.value.id == s.meta.name && r.value.name == s.meta.name && r.value.typ == s.spec.typ
      && r.value.status == StorageStatusOf(s.status.state).value
      && Api.IsValid(Api.StorageType, r.value.typ)
    ensures r.Ok? ==> (r.value.deployment.Some? <==> s.spec.deployment.Some?)
    ensures r.Ok? && s.spec.deployment.Some? ==>
      var d := s.spec.deployment.value;
      r.value.deployment.value == Api.StorageDeployment(d.enabled, d.cpu, d.memory)
  {
    if !IsStorageType(s.spec.typ) then Err(Message("unknown storage type: " + s.spec.typ))
    else
      var deployment :=
        match s.spec.deployment
        case None => None
        case Some(d) => Some(Api.StorageDeployment(d.enabled, d.cpu, d.memory));
      var status :- StorageStatusOf(s.status.state);
      Ok(Api.Storage(s.meta.name, s.meta.name, s.spec.typ, status, deployment))
  }

  /** `StorageInputToCRD`: a new storage named by the server from the prefix
      "storage-" in namespace "default".  A Postgres storage needs the
      Postgres settings, of which only `External` is kept here. */
  function StorageInputToCrd(input: Api.AddStorageInput): (r: Result<Crd.Storage>)
    ensures !IsStorageType(input.typ) ==> r == Err(Message("unsupported storage type: " + input.typ))
    ensures input.typ == Api.StorageTypePostgres && input.postgres.None? ==>
      r == Err(Message("postgres spec is required for storage type: " + input.typ))
    ensures r.Ok? <==> IsStorageType(input.typ) && (input.typ == Api.StorageTypePostgres ==> input.postgres.Some?)
    ensures r.Ok? ==>
      r.value.meta == GeneratedMeta("default", "storage-")
      && r.value.spec.typ == input.typ && r.value.spec.name == input.name
      && r.value.spec.deployment.None? && r.value.status.state.None?
      && (r.value.spec.postgres.Some? <==> input.typ == Api.StorageTypePostgres)
      && (r.value.spec.postgres.Some? ==> r.value.spec.postgres.value.external == input.postgres.value.external)
  {
    if !IsStorageType(input.typ) then Err(Message("unsupported storage type: " + input.typ))
    else if input.typ == Api.StorageTypePostgres && input.postgres.None? then
      Err(Message("postgres spec is required for storage type: " + input.typ))
    else
      var postgres := if input.typ == Api.StorageTypePostgres then Some(Crd.PostgresSpec(input.postgres.value.external)) else None;
      Ok(Crd.Storage(GeneratedMeta("default", "storage-"),
                     Crd.StorageSpec(input.typ, input.name, None, postgres),
                     Crd.StorageStatus(None, [])))
  }

  /** An accepted input read back through the API keeps its type, is
      NOT_DEPLOYED without a deployment, and is shown under the object's
      name rather than the name given. */
  lemma StorageInputRoundTrip(input: Api.AddStorageInput, objectName: string)
    requires StorageInputToCrd(input).Ok?
    ensures var crd := StorageInputToCrd(input).value;
      StorageCrdToModel(crd.(meta := crd.meta.(name := objectName)))
        == Ok(Api.Storage(objectName, objectName, input.typ, Api.StorageStatusNotDeployed, None))
  {
  }

  /** The keys of the Postgres connection Secret. */
  const PostgresSecretKeys: set<string> := {"host", "port", "database", "username", "password", "ssl_mode", "timezone"}

  /** `PostgresSecretInputToCRD`: the Secret named after the storage, in its
      namespace, holding the connection settings with the port in decimal. */
  function PostgresSecretInputToCrd(storage: Crd.Storage, input: Option<Api.PostgresInput>): (r: Result<Secret>)
    ensures r.Ok? <==> input.Some?
    ensures r.Ok? ==>
      var p := input.value;
      r.value.meta == NamedMeta(storage.meta.namespace, storage.meta.name)
      && r.value.data.Keys == PostgresSecretKeys
      && r.value.data["host"] == p.host && r.value.data["database"] == p.database
      && r.value.data["username"] == p.username && r.value.data["password"] == p.password
      && r.value.data["ssl_mode"] == p.sslMode && r.value.data["timezone"] == p.timezone
      && r.value.data["port"] == IntToDecimal(p.port)
  {
    match input
    case None => Err(Panic("nil pointer dereference: input"))
    case Some(p) =>
      Ok(Secret(NamedMeta(storage.meta.namespace, storage.meta.name),
                map["host" := p.host, "port" := IntToDecimal(p.port), "database" := p.database,
                    "username" := p.username, "password" := p.password,
                    "ssl_mode" := p.sslMode, "timezone" := p.timezone]))
  }

  /** The port written to the Secret reads back as the same number. */
  lemma SecretPortRoundTrip(storage: Crd.Storage, p: Api.PostgresInput)
    requires IsInt64(p.port)
    ensures Atoi(PostgresSecretInputToCrd(storage, Some(p)).value.data["port"]) == Ok(p.port)
  {
    AtoiOfDecimal(p.port);
  }
}
