/** The Storage controller: runs a Redis Stack deployment for a Storage
    whose deployment spec is enabled, removes it when the spec is disabled,
    and reports the outcome in the Storage's status.

    Unlike the model controller, the steps of a reconcile share one Storage
    object: a successful status write refreshes it with what the server
    stored, so each step sees the state and resource version the previous
    step left. */
module StorageController {
  import opened Wrappers
  import opened Kube
  import opened CloudApi
  import opened Cluster

  /** The objects the storage controller reads and writes. */
  datatype World = World(
    storages: Store<Storage>, deployments: Store<Deployment>, services: Store<Service>,
    claims: Store<PersistentVolumeClaim>, secrets: Store<Secret>)

  /** What a step leaves behind: its outcome, the cluster, and the shared
      Storage object with the resource version it now carries. */
  datatype Step = Step(outcome: Outcome, world: World, storage: Storage, version: nat)

  /** A status moved to `state`, with one condition recording the reason. */
  function Transition(status: StorageStatus, state: string, reason: string, message: string): (s: StorageStatus)
    ensures s.state == Some(state)
    ensures s.conditions == AppendCondition(status.conditions, state, reason, message)
  {
    StorageStatus(Some(state), AppendCondition(status.conditions, state, reason, message))
  }

  /** `r.Status().Update(ctx, storage)` for the shared object: on success the
      object is what was written, at the next version. */
  function WriteStatusSpec(w: World, storage: Storage, version: nat, status: StorageStatus): (s: Step)
    ensures s.outcome.Pass? ==> s.storage == storage.(status := status) && s.version == version + 1
    ensures s.outcome.Fail? ==> s.world == w
  {
    var written := storage.(status := status);
    var (o, storages) := w.storages.Update(KeyOf(storage.meta), written, version);
    if o.Fail? then Step(o, w, storage, version)
    else Step(Pass, w.(storages := storages), written, version + 1)
  }

  // ---------------------------------------------------------------------
  // createPassword
  // ---------------------------------------------------------------------

  const Digits := "0123456789"
  const Specials := "~=+%^*/()[]{}/!@#$?|"
  const Letters := "ABCDEFGHIJKLMNOPQRSTUVWXYZabcdefghijklmnopqrstuvwxyz"
  const Alphabet := Letters + Digits + Specials
  const PasswordLength := 8

  /** The buffer `createPassword` fills before shuffling it: a digit, a
      special character, then six characters of the whole alphabet.
      `rand(k)` is the k-th number drawn from the random source, so
      `rand.Intn(n)` at draw k is `rand(k) % n`. */
  function Unshuffled(rand: nat -> nat): (buf: string)
    ensures |buf| == PasswordLength
  {
    [Digits[rand(0) % |Digits|], Specials[rand(1) % |Specials|]]
      + seq(PasswordLength - 2, k requires 0 <= k < PasswordLength - 2 => Alphabet[rand(k + 2) % |Alphabet|])
  }

  /** The buffer holds a digit, a special character, and characters of the
      alphabet throughout. */
  lemma UnshuffledShape(rand: nat -> nat)
    ensures var buf := Unshuffled(rand);
      buf[0] in Digits && buf[1] in Specials
      && forall k :: 0 <= k < |buf| ==> buf[k] in Alphabet
  {
    var buf := Unshuffled(rand);
    forall k | 0 <= k < |buf| ensures buf[k] in Alphabet {
      UnshuffledAt(rand, k);
      if k == 0 {
        assert Alphabet[|Letters| + rand(0) % |Digits|] == buf[k];
      } else if k == 1 {
        assert Alphabet[|Letters| + |Digits| + rand(1) % |Specials|] == buf[k];
      }
    }
  }

  function Swap(s: string, i: nat, j: nat): (t: string)
    requires i < |s| && j < |s|
    ensures |t| == |s|
  {
    s[i := s[j]][j := s[i]]
  }

  lemma SwapPermutes(s: string, i: nat, j: nat)
    requires i < |s| && j < |s|
    ensures multiset(Swap(s, i, j)) == multiset(s)
  {
  }

  /** The position `rand.Shuffle` swaps with position `i` of an `n`-character
      buffer: `Intn(i + 1)` at the draw after the eight of the buffer and
      the ones for the positions above `i`. */
  function Draw(rand: nat -> nat, n: nat, i: nat): (j: nat)
    requires 0 < i < n
    ensures j <= i
  {
    rand(2 * n - 1 - i) % (i + 1)
  }

  /** The Fisher-Yates shuffle `rand.Shuffle` performs, from position `i`
      down to 1; position `i` is swapped with the one drawn for it. */
  function Shuffle(s: string, i: nat, rand: nat -> nat): string
    requires i < |s|
    decreases i
  {
    if i == 0 then s
    else Shuffle(Swap(s, i, Draw(rand, |s|, i)), i - 1, rand)
  }

  lemma {:induction false} ShufflePermutes(s: string, i: nat, rand: nat -> nat)
    requires i < |s|
    ensures |Shuffle(s, i, rand)| == |s|
    ensures multiset(Shuffle(s, i, rand)) == multiset(s)
    decreases i
  {
    if i > 0 {
      var j := Draw(rand, |s|, i);
      SwapPermutes(s, i, j);
      ShufflePermutes(Swap(s, i, j), i - 1, rand);
    }
  }

  /** The password `createPassword` returns for the draws `rand`. */
  function Password(rand: nat -> nat): string
  {
    Shuffle(Unshuffled(rand), PasswordLength - 1, rand)
  }

  /** A password has eight characters of the alphabet, at least one digit
      and at least one special character, and is a rearrangement of the
      characters drawn. */
  lemma PasswordShape(rand: nat -> nat)
    ensures var p := Password(rand);
      |p| == PasswordLength
      && multiset(p) == multiset(Unshuffled(rand))
      && (forall k :: 0 <= k < |p| ==> p[k] in Alphabet)
      && (exists k :: 0 <= k < |p| && p[k] in Digits)
      && (exists k :: 0 <= k < |p| && p[k] in Specials)
  {
    var u := Unshuffled(rand);
    var p := Password(rand);
    UnshuffledShape(rand);
    ShufflePermutes(u, PasswordLength - 1, rand);
    forall k | 0 <= k < |p|
      ensures p[k] in Alphabet
    {
      assert p[k] in multiset(u);
    }
    assert u[0] in multiset(p);
    assert u[1] in multiset(p);
  }

  lemma UnshuffledAt(rand: nat -> nat, k: nat)
    requires k < PasswordLength
    ensures Unshuffled(rand)[k] ==
      if k == 0 then Digits[rand(0) % |Digits|]
      else if k == 1 then Specials[rand(1) % |Specials|]
      else Alphabet[rand(k) % |Alphabet|]
  {
  }

  lemma ShuffleStep(s: string, i: nat, rand: nat -> nat)
    requires 0 < i < |s|
    ensures Shuffle(s, i, rand) == Shuffle(Swap(s, i, Draw(rand, |s|, i)), i - 1, rand)
  {
  }

  /** `rand.Shuffle` on a buffer, swapping in place. */
  method ShuffleInPlace(buf: array<char>, rand: nat -> nat)
    requires buf.Length > 0
    modifies buf
    ensures buf[..] == Shuffle(old(buf[..]), buf.Length - 1, rand)
  {
    ghost var target := Shuffle(buf[..], buf.Length - 1, rand);
    var j := buf.Length - 1;
    while j > 0
      invariant 0 <= j < buf.Length
      invariant Shuffle(buf[..], j, rand) == target
    {
      var k := Draw(rand, buf.Length, j);
      ShuffleStep(buf[..], j, rand);
      SwapInPlace(buf, j, k);
      j := j - 1;
    }
  }

  /** Exchanges two cells of the buffer. */
  method SwapInPlace(buf: array<char>, i: nat, j: nat)
    requires i < buf.Length && j < buf.Length
    modifies buf
    ensures buf[..] == Swap(old(buf[..]), i, j)
  {
    var t := buf[i];
    buf[i] := buf[j];
    buf[j] := t;
  }

  /** `createPassword`, filling an eight-byte buffer and shuffling it in
      place. */
  method CreatePassword(rand: nat -> nat) returns (password: string)
    ensures password == Password(rand)
  {
    ghost var u := Unshuffled(rand);
    var buf := new char[PasswordLength];
    buf[0] := Digits[rand(0) % |Digits|];
    UnshuffledAt(rand, 0);
    buf[1] := Specials[rand(1) % |Specials|];
    UnshuffledAt(rand, 1);
    var i := 2;
    while i < PasswordLength
      invariant 2 <= i <= PasswordLength
      invariant forall k :: 0 <= k < i ==> buf[k] == u[k]
    {
      buf[i] := Alphabet[rand(i) % |Alphabet|];
      UnshuffledAt(rand, i);
      i := i + 1;
    }
    assert buf[..] == u;
    ShuffleInPlace(buf, rand);
    password := buf[..];
  }

  // ---------------------------------------------------------------------
  // The objects created for a Redis storage
  // ---------------------------------------------------------------------

  const RedisImage := "redis/redis-stack:latest"
  const RedisLabels: map<string, string> := map["app" := "redis-stack"]
  const ClaimSize := "100Mi"

  /** The secret `ensurePasswordSecret` creates: the password itself and the
      Redis argument that sets it. */
  function PasswordSecret(storage: Storage, password: string): (s: Secret)
    ensures KeyOf(s.meta) == KeyOf(storage.meta)
    ensures s.data.Keys == {"password", "redis-password"}
    ensures s.data["password"] == password && s.data["redis-password"] == "--requirepass " + password
  {
    Secret(NamedMeta(storage.meta.namespace, storage.meta.name),
      map["password" := password, "redis-password" := "--requirepass " + password])
  }

  function RedisContainer(d: DeploymentSpec): Container
  {
    Container("redis-stack", RedisImage, [], [], Limits(d.cpu, d.memory))
  }

  /** What `CreateOrUpdate` sets on the deployment: one replica of the Redis
      Stack container with the spec's limits. */
  function SetDeploymentSpec(d: DeploymentSpec): Deployment -> Deployment
  {
    (dep: Deployment) => dep.(container := RedisContainer(d), replicas := 1)
  }

  /** What `CreateOrUpdate` sets on the service: the Redis and RedisInsight
      ports. */
  function SetServiceSpec(): Service -> Service
  {
    (svc: Service) => svc.(ports := [6379, 8001])
  }

  function NewDeployment(storage: Storage): Deployment
  {
    Deployment(ObjectMeta(storage.meta.name, "", storage.meta.namespace, RedisLabels),
      Container("", "", [], [], Limits("", "")), 0, 0)
  }

  function NewService(storage: Storage): Service
  {
    Service(NamedMeta(storage.meta.namespace, storage.meta.name), [])
  }

  // ---------------------------------------------------------------------
  // The reconcile steps, as functions of the cluster
  // ---------------------------------------------------------------------

  /** `ensurePasswordSecret`: create the secret only when it is missing. */
  function EnsurePasswordSecretSpec(w: World, storage: Storage, rand: nat -> nat): (Outcome, World)
  {
    var key := KeyOf(storage.meta);
    if key in w.secrets.objects then (Pass, w)
    else
      var (o, secrets) := w.secrets.Create(key, PasswordSecret(storage, Password(rand)));
      (o, w.(secrets := secrets))
  }

  /** The objects `createDeployment` makes after the secret: a volume claim,
      then the deployment and the service. */
  function CreateRedisObjectsSpec(w: World, storage: Storage, d: DeploymentSpec): (Outcome, World)
  {
    var key := KeyOf(storage.meta);
    var (o1, claims) := w.claims.Create(key,
      PersistentVolumeClaim(NamedMeta(storage.meta.namespace, storage.meta.name), ClaimSize));
    if o1.Fail? then (o1, w)
    else
      var w1 := w.(claims := claims);
      var (o2, deployments) := w1.deployments.CreateOrUpdate(key, NewDeployment(storage), SetDeploymentSpec(d));
      if o2.Fail? then (o2, w1)
      else
        var w2 := w1.(deployments := deployments);
        var (o3, services) := w2.services.CreateOrUpdate(key, NewService(storage), SetServiceSpec());
        (o3, if o3.Fail? then w2 else w2.(services := services))
  }

  /** `createDeployment`: only Redis is supported.  It creates the password
      secret if needed, a volume claim, the deployment and the service, and
      records DEPLOYING. */
  function CreateDeploymentSpec(w: World, storage: Storage, version: nat, d: DeploymentSpec, rand: nat -> nat): Step
  {
    if storage.spec.typ != StorageTypeRedis then
      Step(Fail(Message("unsupported storage type: " + storage.spec.typ)), w, storage, version)
    else
      var (o1, w1) := EnsurePasswordSecretSpec(w, storage, rand);
      if o1.Fail? then Step(o1, w1, storage, version)
      else
        var (o2, w2) := CreateRedisObjectsSpec(w1, storage, d);
        if o2.Fail? then Step(o2, w2, storage, version)
        else
          WriteStatusSpec(w2, storage, version,
            Transition(storage.status, StorageStateDeploying,
              "InferenceServiceCreated", "Inference service created successfully"))
  }

  /** `ensureDeployment`: with an enabled deployment spec, create the
      deployment if it is missing, or bring its limits to the spec's and
      record DEPLOYING if they differ. */
  function EnsureDeploymentSpec(w: World, storage: Storage, version: nat, rand: nat -> nat): Step
  {
    if storage.spec.deployment.None? || !storage.spec.deployment.value.enabled then
      Step(Pass, w, storage, version)
    else
      var d := storage.spec.deployment.value;
      var key := KeyOf(storage.meta);
      match w.deployments.Get(key)
      case Err(_) => CreateDeploymentSpec(w, storage, version, d, rand)
      case Ok(dep) =>
        var limits := Limits(d.cpu, d.memory);
        if dep.container.limits == limits then Step(Pass, w, storage, version)
        else
          var updated := dep.(container := dep.container.(limits := limits));
          var (o, deployments) := w.deployments.Update(key, updated, w.deployments.Version(key));
          if o.Fail? then Step(o, w, storage, version)
          else
            WriteStatusSpec(w.(deployments := deployments), storage, version,
              Transition(storage.status, StorageStateDeploying,
                "DeploymentUpdated", "Deployment updated successfully"))
  }

  /** `ensureDeploymentCleanup`: with a disabled deployment spec, delete the
      deployment and the service and record NOT_DEPLOYED.  A missing object
      leaves the object to delete empty, and deleting it fails. */
  function EnsureDeploymentCleanupSpec(w: World, storage: Storage, version: nat): Step
  {
    if storage.spec.deployment.None? || storage.spec.deployment.value.enabled then
      Step(Pass, w, storage, version)
    else
      var key := KeyOf(storage.meta);
      var depTarget := if key in w.deployments.objects then key else ObjectKey("", "");
      var (o1, deployments) := w.deployments.Delete(depTarget);
      if IgnoreNotFound(o1).Fail? then Step(o1, w, storage, version)
      else
        var w1 := w.(deployments := deployments);
        var svcTarget := if key in w1.services.objects then key else ObjectKey("", "");
        var (o2, services) := w1.services.Delete(svcTarget);
        if IgnoreNotFound(o2).Fail? then Step(o2, w1, storage, version)
        else
          WriteStatusSpec(w1.(services := services), storage, version,
            Transition(storage.status, StorageStateNotDeployed,
              "DeploymentDeleted", "Deployment deleted successfully"))
  }

  /** `ensureStatus`: with a disabled deployment spec, an existing deployment
      with ready replicas moves a storage that is not READY to READY; without
      one, or with an enabled one, an external Postgres storage is set READY
      on every reconcile. */
  function EnsureStatusSpec(w: World, storage: Storage, version: nat): Step
  {
    var key := KeyOf(storage.meta);
    if storage.spec.deployment.Some? && !storage.spec.deployment.value.enabled then
      if key !in w.deployments.objects then Step(Pass, w, storage, version)
      else if w.deployments.objects[key].readyReplicas > 0 && storage.status.state.Some?
              && storage.status.state != Some(StorageStateReady) then
        WriteStatusSpec(w, storage, version,
          Transition(storage.status, StorageStateReady, "DeploymentReady", "Deployment is ready"))
      else Step(Pass, w, storage, version)
    else if storage.spec.typ == StorageTypePostgres && storage.spec.postgres.Some?
            && storage.spec.postgres.value.external then
      WriteStatusSpec(w, storage, version,
        Transition(storage.status, StorageStateReady, "DeploymentReady", "Deployment is ready"))
    else Step(Pass, w, storage, version)
  }

  /** `Reconcile`: the result says whether to requeue. */
  function ReconcileSpec(w: World, key: ObjectKey, rand: nat -> nat): (Result<bool>, World)
  {
    match w.storages.Get(key)
    case Err(_) => (Ok(false), w)
    case Ok(storage) =>
      var version := w.storages.Version(key);
      if storage.status.state.None? then
        var s := WriteStatusSpec(w, storage, version, storage.status.(state := Some(StorageStateNotDeployed)));
        (if s.outcome.Fail? then Err(s.outcome.error) else Ok(true), s.world)
      else
        var s1 := EnsureDeploymentSpec(w, storage, version, rand);
        if s1.outcome.Fail? then (Err(s1.outcome.error), s1.world)
        else
          var s2 := EnsureDeploymentCleanupSpec(s1.world, s1.storage, s1.version);
          if s2.outcome.Fail? then (Err(s2.outcome.error), s2.world)
          else
            var s3 := EnsureStatusSpec(s2.world, s2.storage, s2.version);
            if s3.outcome.Fail? then (Err(s3.outcome.error), s3.world) else (Ok(false), s3.world)
  }

  /** `storage` is stored under `key`, which is its own namespace and name. */
  predicate StoredAt(w: World, key: ObjectKey, storage: Storage)
  {
    key in w.storages.objects && w.storages.objects[key] == storage && KeyOf(storage.meta) == key
  }

  function WithStatus(storage: Storage, status: StorageStatus): Storage
  {
    storage.(status := status)
  }

  /** A storage without a state is marked NOT_DEPLOYED, without a
      condition, and the reconcile asks to be requeued. */
  lemma FirstReconcileRequeues(w: World, key: ObjectKey, storage: Storage, rand: nat -> nat)
    requires StoredAt(w, key, storage) && storage.status.state.None?
    ensures var (r, after) := ReconcileSpec(w, key, rand);
      r == Ok(true) && after == w.(storages := after.storages)
      && after.storages.Get(key)
         == Ok(WithStatus(storage, StorageStatus(Some(StorageStateNotDeployed), storage.status.conditions)))
  {
  }

  /** An enabled Redis storage without a deployment gets a password secret
      (unless it has one), a volume claim, the deployment and the service,
      and moves to DEPLOYING with one condition. */
  lemma EnabledRedisIsDeployed(w: World, key: ObjectKey, storage: Storage, rand: nat -> nat)
    requires StoredAt(w, key, storage) && storage.status.state.Some?
    requires storage.spec.deployment.Some? && storage.spec.deployment.value.enabled
    requires storage.spec.typ == StorageTypeRedis
    requires key !in w.deployments.objects && key !in w.claims.objects && key !in w.services.objects
    ensures var (r, after) := ReconcileSpec(w, key, rand);
      var d := storage.spec.deployment.value;
      r == Ok(false)
      && (key !in w.secrets.objects ==>
            after.secrets.Get(key) == Ok(PasswordSecret(storage, Password(rand))))
      && (key in w.secrets.objects ==> after.secrets == w.secrets)
      && after.claims.Get(key) == Ok(PersistentVolumeClaim(NamedMeta(key.namespace, key.name), ClaimSize))
      && after.deployments.Get(key) == Ok(SetDeploymentSpec(d)(NewDeployment(storage)))
      && after.services.Get(key) == Ok(SetServiceSpec()(NewService(storage)))
      && after.storages.Get(key) == Ok(WithStatus(storage, Transition(storage.status, StorageStateDeploying,
           "InferenceServiceCreated", "Inference service created successfully")))
  {
    var d := storage.spec.deployment.value;
    var version := w.storages.Version(key);
    var s1 := EnsureDeploymentSpec(w, storage, version, rand);
    assert s1 == CreateDeploymentSpec(w, storage, version, d, rand);
    CreateRedisDeployment(w, storage, version, d, rand);
    assert EnsureDeploymentCleanupSpec(s1.world, s1.storage, s1.version) == Step(Pass, s1.world, s1.storage, s1.version);
    assert EnsureStatusSpec(s1.world, s1.storage, s1.version) == Step(Pass, s1.world, s1.storage, s1.version);
  }

  /** `createDeployment` of a Redis storage none of whose objects exist
      yet: every object is created and the status records DEPLOYING. */
  lemma CreateRedisDeployment(w: World, storage: Storage, version: nat, d: DeploymentSpec, rand: nat -> nat)
    requires storage.spec.typ == StorageTypeRedis
    requires var key := KeyOf(storage.meta);
      key !in w.deployments.objects && key !in w.claims.objects && key !in w.services.objects
      && key in w.storages.objects && w.storages.Version(key) == version
    ensures var s := CreateDeploymentSpec(w, storage, version, d, rand);
      var key := KeyOf(storage.meta);
      var status := Transition(storage.status, StorageStateDeploying,
        "InferenceServiceCreated", "Inference service created successfully");
      s.outcome == Pass && s.storage == WithStatus(storage, status)
      && (key !in w.secrets.objects ==>
            s.world.secrets.Get(key) == Ok(PasswordSecret(storage, Password(rand))))
      && (key in w.secrets.objects ==> s.world.secrets == w.secrets)
      && s.world.claims.Get(key) == Ok(PersistentVolumeClaim(NamedMeta(key.namespace, key.name), ClaimSize))
      && s.world.deployments.Get(key) == Ok(SetDeploymentSpec(d)(NewDeployment(storage)))
      && s.world.services.Get(key) == Ok(SetServiceSpec()(NewService(storage)))
      && s.world.storages.Get(key) == Ok(s.storage)
  {
    var key := KeyOf(storage.meta);
    var (o1, w1) := EnsurePasswordSecretSpec(w, storage, rand);
    assert o1 == Pass && w1 == w.(secrets := w1.secrets);
    var (o2, w2) := CreateRedisObjectsSpec(w1, storage, d);
    assert o2 == Pass;
    var status := Transition(storage.status, StorageStateDeploying,
      "InferenceServiceCreated", "Inference service created successfully");
    assert CreateDeploymentSpec(w, storage, version, d, rand)
      == WriteStatusSpec(w2, storage, version, status);
    WriteStatusStores(w2, storage, version, status);
  }

  /** A status write that succeeds stores the written object and touches
      nothing but the storages. */
  lemma WriteStatusStores(w: World, storage: Storage, version: nat, status: StorageStatus)
    requires KeyOf(storage.meta) in w.storages.objects && w.storages.Version(KeyOf(storage.meta)) == version
    ensures var s := WriteStatusSpec(w, storage, version, status);
      s.outcome == Pass && s.storage == WithStatus(storage, status)
      && s.world == w.(storages := s.world.storages)
      && s.world.storages.Get(KeyOf(storage.meta)) == Ok(s.storage)
  {
  }

  /** Only Redis storages can be deployed; any other type fails and nothing
      is written. */
  lemma UnsupportedTypeFails(w: World, key: ObjectKey, storage: Storage, rand: nat -> nat)
    requires StoredAt(w, key, storage) && storage.status.state.Some?
    requires storage.spec.deployment.Some? && storage.spec.deployment.value.enabled
    requires storage.spec.typ != StorageTypeRedis && key !in w.deployments.objects
    ensures ReconcileSpec(w, key, rand) == (Err(Message("unsupported storage type: " + storage.spec.typ)), w)
  {
  }

  /** The volume claim is not removed by the cleanup, so a Redis storage
      whose deployment was deleted fails on every later reconcile that tries
      to deploy it again: creating the claim finds the old one. */
  lemma RedeployFindsOldClaim(w: World, key: ObjectKey, storage: Storage, rand: nat -> nat)
    requires StoredAt(w, key, storage) && storage.status.state.Some?
    requires storage.spec.deployment.Some? && storage.spec.deployment.value.enabled
    requires storage.spec.typ == StorageTypeRedis
    requires key !in w.deployments.objects && key in w.claims.objects && key in w.secrets.objects
    ensures ReconcileSpec(w, key, rand) == (Err(AlreadyExists(key.name)), w)
  {
  }

  /** An existing deployment whose limits differ from the spec gets the
      spec's limits and the storage moves to DEPLOYING. */
  lemma ChangedLimitsAreApplied(w: World, key: ObjectKey, storage: Storage, rand: nat -> nat)
    requires StoredAt(w, key, storage) && storage.status.state.Some?
    requires storage.spec.deployment.Some? && storage.spec.deployment.value.enabled
    requires storage.spec.typ != StorageTypePostgres
    requires key in w.deployments.objects
    requires var d := storage.spec.deployment.value;
      w.deployments.objects[key].container.limits != Limits(d.cpu, d.memory)
    ensures var (r, after) := ReconcileSpec(w, key, rand);
      var dep := w.deployments.objects[key];
      var d := storage.spec.deployment.value;
      r == Ok(false)
      && after.deployments.Get(key) == Ok(dep.(container := dep.container.(limits := Limits(d.cpu, d.memory))))
      && after.storages.Get(key) == Ok(WithStatus(storage, Transition(storage.status, StorageStateDeploying,
           "DeploymentUpdated", "Deployment updated successfully")))
  {
  }

  /** A disabled deployment spec deletes the deployment and the service and
      moves the storage to NOT_DEPLOYED with one condition; the volume claim
      and the secret stay. */
  lemma DisabledDeploymentIsDeleted(w: World, key: ObjectKey, storage: Storage, rand: nat -> nat)
    requires StoredAt(w, key, storage) && storage.status.state.Some? && key.name != ""
    requires storage.spec.deployment.Some? && !storage.spec.deployment.value.enabled
    requires key in w.deployments.objects && key in w.services.objects
    ensures var (r, after) := ReconcileSpec(w, key, rand);
      r == Ok(false)
      && key !in after.deployments.objects && key !in after.services.objects
      && after.claims == w.claims && after.secrets == w.secrets
      && after.storages.Get(key) == Ok(WithStatus(storage, Transition(storage.status, StorageStateNotDeployed,
           "DeploymentDeleted", "Deployment deleted successfully")))
  {
  }

  /** With a disabled deployment spec and no deployment, the cleanup deletes
      the empty object its failed read left behind, which fails: the state
      is not set to NOT_DEPLOYED. */
  lemma CleanupWithoutDeploymentFails(w: World, key: ObjectKey, storage: Storage, rand: nat -> nat)
    requires StoredAt(w, key, storage) && storage.status.state.Some?
    requires storage.spec.deployment.Some? && !storage.spec.deployment.value.enabled
    requires key !in w.deployments.objects
    ensures ReconcileSpec(w, key, rand) == (Err(EmptyNameError), w)
  {
  }

  /** The ready-replica check only runs with a disabled deployment spec,
      after the cleanup has deleted the deployment, so a reconcile never
      reports READY from ready replicas: a successful one leaves a storage
      with a disabled deployment NOT_DEPLOYED. */
  lemma ReadyReplicasNeverReported(w: World, key: ObjectKey, storage: Storage, rand: nat -> nat)
    requires StoredAt(w, key, storage) && storage.status.state.Some?
    requires storage.spec.deployment.Some? && !storage.spec.deployment.value.enabled
    ensures var (r, after) := ReconcileSpec(w, key, rand);
      r.Ok? ==> key in after.storages.objects
                && after.storages.objects[key].status.state == Some(StorageStateNotDeployed)
  {
  }

  /** An external Postgres storage without a deployment spec is set READY,
      with one more condition, on every reconcile, READY or not. */
  lemma ExternalPostgresIsReady(w: World, key: ObjectKey, storage: Storage, rand: nat -> nat)
    requires StoredAt(w, key, storage) && storage.status.state.Some?
    requires storage.spec.deployment.None?
    requires storage.spec.typ == StorageTypePostgres
    requires storage.spec.postgres == Some(PostgresSpec(true))
    ensures var (r, after) := ReconcileSpec(w, key, rand);
      r == Ok(false)
      && after.storages.Get(key) == Ok(WithStatus(storage, Transition(storage.status, StorageStateReady,
           "DeploymentReady", "Deployment is ready")))
  {
  }

  /** The reconciler, over the cluster's storages and the objects it
      creates for them. */
  class StorageReconciler {
    const storages: Collection<Storage>
    const deployments: Collection<Deployment>
    const services: Collection<Service>
    const claims: Collection<PersistentVolumeClaim>
    const secrets: Collection<Secret>

    constructor(storages: Collection<Storage>, deployments: Collection<Deployment>,
                services: Collection<Service>, claims: Collection<PersistentVolumeClaim>,
                secrets: Collection<Secret>)
      ensures this.storages == storages && this.deployments == deployments
      ensures this.services == services && this.claims == claims && this.secrets == secrets
    {
      this.storages := storages;
      this.deployments := deployments;
      this.services := services;
      this.claims := claims;
      this.secrets := secrets;
    }

    function Snapshot(): World
      reads storages, deployments, services, claims, secrets
    {
      World(storages.store, deployments.store, services.store, claims.store, secrets.store)
    }

    /** `Reconcile`; `rand` supplies the numbers a new password is drawn
        from. */
    method Reconcile(key: ObjectKey, rand: nat -> nat) returns (r: Result<bool>)
      modifies storages, deployments, services, claims, secrets
      ensures (r, Snapshot()) == ReconcileSpec(old(Snapshot()), key, rand)
    {
      var got := storages.store.Get(key);
      if got.Err? {
        return Ok(false);
      }
      var storage := got.value;
      var version := storages.store.Version(key);
      var o;
      if storage.status.state.None? {
        o, storage, version := WriteStatus(storage, version, storage.status.(state := Some(StorageStateNotDeployed)));
        if o.Fail? {
          return Err(o.error);
        }
        return Ok(true);
      }
      o, storage, version := EnsureDeployment(storage, version, rand);
      if o.Fail? {
        return Err(o.error);
      }
      o, storage, version := EnsureDeploymentCleanup(storage, version);
      if o.Fail? {
        return Err(o.error);
      }
      o, storage, version := EnsureStatus(storage, version);
      if o.Fail? {
        return Err(o.error);
      }
      return Ok(false);
    }

    /** `r.Status().Update(ctx, storage)`, refreshing the shared object. */
    method WriteStatus(storage: Storage, version: nat, status: StorageStatus)
      returns (r: Outcome, current: Storage, currentVersion: nat)
      modifies storages
      ensures Step(r, Snapshot(), current, currentVersion)
           == WriteStatusSpec(old(Snapshot()), storage, version, status)
    {
      var written := storage.(status := status);
      r := storages.Update(KeyOf(storage.meta), written, version);
      if r.Fail? {
        return r, storage, version;
      }
      return Pass, written, version + 1;
    }

    method EnsureDeployment(storage: Storage, version: nat, rand: nat -> nat)
      returns (r: Outcome, current: Storage, currentVersion: nat)
      modifies storages, deployments, services, claims, secrets
      ensures Step(r, Snapshot(), current, currentVersion)
           == EnsureDeploymentSpec(old(Snapshot()), storage, version, rand)
    {
      if storage.spec.deployment.None? || !storage.spec.deployment.value.enabled {
        return Pass, storage, version;
      }
      var d := storage.spec.deployment.value;
      var key := KeyOf(storage.meta);
      var got := deployments.store.Get(key);
      if got.Err? {
        r, current, currentVersion := CreateDeployment(storage, version, d, rand);
        return;
      }
      var dep := got.value;
      var limits := Limits(d.cpu, d.memory);
      if dep.container.limits == limits {
        return Pass, storage, version;
      }
      var updated := dep.(container := dep.container.(limits := limits));
      r := deployments.Update(key, updated, deployments.store.Version(key));
      if r.Fail? {
        return r, storage, version;
      }
      r, current, currentVersion := WriteStatus(storage, version,
        Transition(storage.status, StorageStateDeploying, "DeploymentUpdated", "Deployment updated successfully"));
    }

    method EnsurePasswordSecret(storage: Storage, rand: nat -> nat) returns (r: Outcome)
      modifies secrets
      ensures (r, Snapshot()) == EnsurePasswordSecretSpec(old(Snapshot()), storage, rand)
    {
      var key := KeyOf(storage.meta);
      if key in secrets.store.objects {
        return Pass;
      }
      var password := CreatePassword(rand);
      r := secrets.Create(key, PasswordSecret(storage, password));
    }

    method CreateDeployment(storage: Storage, version: nat, d: DeploymentSpec, rand: nat -> nat)
      returns (r: Outcome, current: Storage, currentVersion: nat)
      modifies storages, deployments, services, claims, secrets
      ensures Step(r, Snapshot(), current, currentVersion)
           == CreateDeploymentSpec(old(Snapshot()), storage, version, d, rand)
    {
      if storage.spec.typ != StorageTypeRedis {
        return Fail(Message("unsupported storage type: " + storage.spec.typ)), storage, version;
      }
      var key := KeyOf(storage.meta);
      r := EnsurePasswordSecret(storage, rand);
      if r.Fail? {
        return r, storage, version;
      }
      r := CreateRedisObjects(storage, d);
      if r.Fail? {
        return r, storage, version;
      }
      r, current, currentVersion := WriteStatus(storage, version,
        Transition(storage.status, StorageStateDeploying,
          "InferenceServiceCreated", "Inference service created successfully"));
    }

    method CreateRedisObjects(storage: Storage, d: DeploymentSpec) returns (r: Outcome)
      modifies deployments, services, claims
      ensures (r, Snapshot()) == CreateRedisObjectsSpec(old(Snapshot()), storage, d)
    {
      var key := KeyOf(storage.meta);
      r := claims.Create(key, PersistentVolumeClaim(NamedMeta(storage.meta.namespace, storage.meta.name), ClaimSize));
      if r.Fail? {
        return;
      }
      r := deployments.CreateOrUpdate(key, NewDeployment(storage), SetDeploymentSpec(d));
      if r.Fail? {
        return;
      }
      r := services.CreateOrUpdate(key, NewService(storage), SetServiceSpec());
    }

    method EnsureDeploymentCleanup(storage: Storage, version: nat)
      returns (r: Outcome, current: Storage, currentVersion: nat)
      modifies storages, deployments, services
      ensures Step(r, Snapshot(), current, currentVersion)
           == EnsureDeploymentCleanupSpec(old(Snapshot()), storage, version)
    {
      if storage.spec.deployment.None? || storage.spec.deployment.value.enabled {
        return Pass, storage, version;
      }
      var key := KeyOf(storage.meta);
      // a failed Get leaves the object to delete empty
      var target := ObjectKey("", "");
      if key in deployments.store.objects {
        target := key;
      }
      r := deployments.Delete(target);
      if IgnoreNotFound(r).Fail? {
        return r, storage, version;
      }
      target := ObjectKey("", "");
      if key in services.store.objects {
        target := key;
      }
      r := services.Delete(target);
      if IgnoreNotFound(r).Fail? {
        return r, storage, version;
      }
      r, current, currentVersion := WriteStatus(storage, version,
        Transition(storage.status, StorageStateNotDeployed, "DeploymentDeleted", "Deployment deleted successfully"));
    }

    method EnsureStatus(storage: Storage, version: nat)
      returns (r: Outcome, current: Storage, currentVersion: nat)
      modifies storages
      ensures Step(r, Snapshot(), current, currentVersion)
           == EnsureStatusSpec(old(Snapshot()), storage, version)
    {
      var key := KeyOf(storage.meta);
      if storage.spec.deployment.Some? && !storage.spec.deployment.value.enabled {
        if key !in deployments.store.objects {
          return Pass, storage, version;
        }
        if deployments.store.objects[key].readyReplicas > 0 && storage.status.state.Some?
           && storage.status.state != Some(StorageStateReady) {
          r, current, currentVersion := WriteStatus(storage, version,
            Transition(storage.status, StorageStateReady, "DeploymentReady", "Deployment is ready"));
          return;
        }
        return Pass, storage, version;
      } else if storage.spec.typ == StorageTypePostgres && storage.spec.postgres.Some?
                && storage.spec.postgres.value.external {
        r, current, currentVersion := WriteStatus(storage, version,
          Transition(storage.status, StorageStateReady, "DeploymentReady", "Deployment is ready"));
        return;
      }
      return Pass, storage, version;
    }
  }
}
