/** The Model controller: keeps a KServe inference service in step with a
    Model's deployment spec and reports the outcome in the Model's status.

    Each step of a reconcile receives its own copy of the Model read at the
    start, together with the resource version it was read at.  A step that
    writes the status therefore does not change what the next step sees,
    and a second status write in the same reconcile carries a stale version. */
module ModelController {
  import opened Wrappers
  import opened Strings
  import opened Kube
  import opened CloudApi
  import opened Cluster

  /** The objects the model controller reads and writes. */
  datatype World = World(models: Store<Model>, services: Store<InferenceService>)

  /** A status moved to `state`, with one condition recording the reason. */
  function Transition(status: ModelStatus, state: string, reason: string, message: string): (s: ModelStatus)
    ensures s.state == Some(state)
    ensures s.conditions == AppendCondition(status.conditions, state, reason, message)
  {
    ModelStatus(Some(state), AppendCondition(status.conditions, state, reason, message))
  }

  function WithStatus(model: Model, status: ModelStatus): Model
  {
    model.(status := status)
  }

  const PredictorContainer := "kserve-container"

  /** The inference service `createInferenceService` builds for a model:
      only Hugging Face models are supported; its one container runs the
      model deployer image with the model's limits and the Hugging Face
      coordinates as arguments. */
  function InferenceServiceFor(model: Model, image: string): (r: Result<InferenceService>)
    ensures model.spec.typ != ModelTypeHuggingFace ==>
      r == Err(Message("unimplemented model type: " + model.spec.typ))
    ensures r.Ok? <==>
      model.spec.typ == ModelTypeHuggingFace && model.spec.deployment.Some? && model.spec.huggingFace.Some?
    ensures r.Ok? ==>
      KeyOf(r.value.meta) == KeyOf(model.meta) && !r.value.ready
      && r.value.container.name == PredictorContainer && r.value.container.image == image
      && r.value.container.limits
         == Limits(model.spec.deployment.value.cpu, model.spec.deployment.value.memory)
  {
    if model.spec.typ != ModelTypeHuggingFace then
      Err(Message("unimplemented model type: " + model.spec.typ))
    else if model.spec.deployment.None? then
      Err(Panic("nil pointer dereference: Spec.Deployment"))
    else if model.spec.huggingFace.None? then
      Err(Panic("nil pointer dereference: Spec.HuggingFace"))
    else
      var d := model.spec.deployment.value;
      var hf := model.spec.huggingFace.value;
      Ok(InferenceService(
        NamedMeta(model.meta.namespace, model.meta.name),
        Container(PredictorContainer, image, [],
          ["--repo_name=" + hf.name, "--org_name=" + hf.organization,
           "--max_sequence_length=" + IntToDecimal(hf.maxSequenceLength)],
          Limits(d.cpu, d.memory)),
        false))
  }

  /** The value the model deployer's argument parser reads for `flag`: the
      text after `flag=` in the last argument that starts so. */
  function FlagValue(args: seq<string>, flag: string): (v: Option<string>)
    ensures v.Some? ==> exists k :: 0 <= k < |args| && args[k] == flag + "=" + v.value
  {
    if args == [] then None
    else
      var last := args[|args| - 1];
      if StartsWith(last, flag + "=") then
        assert last == flag + "=" + last[|flag| + 1..];
        Some(last[|flag| + 1..])
      else FlagValue(args[..|args| - 1], flag)
  }

  /** The deployer started in the created service reads back the model's
      Hugging Face coordinates. */
  lemma DeployerReadsSpec(model: Model, image: string)
    requires InferenceServiceFor(model, image).Ok?
    requires IsInt64(model.spec.huggingFace.value.maxSequenceLength)
    ensures var args := InferenceServiceFor(model, image).value.container.args;
      var hf := model.spec.huggingFace.value;
      FlagValue(args, "--repo_name") == Some(hf.name)
      && FlagValue(args, "--org_name") == Some(hf.organization)
      && FlagValue(args, "--max_sequence_length").Some?
      && Atoi(FlagValue(args, "--max_sequence_length").value) == Ok(hf.maxSequenceLength)
  {
    var args := InferenceServiceFor(model, image).value.container.args;
    var hf := model.spec.huggingFace.value;
    var digits := IntToDecimal(hf.maxSequenceLength);
    assert args == DeployerArgs(hf.name, hf.organization, digits);
    DeployerArgsRead(hf.name, hf.organization, digits);
    AtoiOfDecimal(hf.maxSequenceLength);
  }

  /** The arguments the deployer container is started with. */
  function DeployerArgs(name: string, organization: string, digits: string): seq<string>
  {
    ["--repo_name=" + name, "--org_name=" + organization, "--max_sequence_length=" + digits]
  }

  /** Each flag of the deployer's arguments reads back its own value. */
  lemma DeployerArgsRead(name: string, organization: string, digits: string)
    ensures FlagValue(DeployerArgs(name, organization, digits), "--repo_name") == Some(name)
    ensures FlagValue(DeployerArgs(name, organization, digits), "--org_name") == Some(organization)
    ensures FlagValue(DeployerArgs(name, organization, digits), "--max_sequence_length") == Some(digits)
  {
    var args := DeployerArgs(name, organization, digits);
    var repo, org, max := args[0], args[1], args[2];
    assert args[..2] == [repo, org] && args[..1] == [repo] && args[..2][..1] == [repo];
    assert repo[2] == 'r' && org[2] == 'o' && max[2] == 'm';
    NotFlag(max, "--repo_name");
    NotFlag(org, "--repo_name");
    NotFlag(max, "--org_name");
    assert StartsWith(repo, "--repo_name=") && repo[|"--repo_name="|..] == name;
    assert StartsWith(org, "--org_name=") && org[|"--org_name="|..] == organization;
    assert StartsWith(max, "--max_sequence_length=") && max[|"--max_sequence_length="|..] == digits;
    assert FlagValue(args, "--repo_name") == FlagValue([repo, org], "--repo_name");
    assert FlagValue([repo, org], "--repo_name") == FlagValue([repo], "--repo_name");
  }

  lemma NotFlag(arg: string, flag: string)
    requires |flag| > 2 && |arg| > 2 && arg[2] != flag[2]
    ensures !StartsWith(arg, flag + "=")
  {
    var prefix := flag + "=";
    assert prefix[2] == flag[2];
    if |prefix| <= |arg| {
      assert arg[..|prefix|][2] == arg[2];
    }
  }

  /** `createInferenceService`: create the service, then record DEPLOYING. */
  function CreateInferenceServiceSpec(w: World, model: Model, version: nat, image: string): (Outcome, World)
  {
    match InferenceServiceFor(model, image)
    case Err(e) => (Fail(e), w)
    case Ok(svc) =>
      var (created, services) := w.services.Create(KeyOf(svc.meta), svc);
      if created.Fail? then (created, w)
      else
        var status := Transition(model.status, ModelStateDeploying,
          "InferenceServiceCreated", "Inference service created successfully");
        var (written, models) := w.models.Update(KeyOf(model.meta), WithStatus(model, status), version);
        (written, World(models, services))
  }

  /** `ensureInferenceService`: with an enabled deployment, create the
      service if it is missing, or bring its limits to the spec's and
      record DEPLOYING if they differ. */
  function EnsureInferenceServiceSpec(w: World, model: Model, version: nat, image: string): (Outcome, World)
  {
    if model.spec.deployment.None? || !model.spec.deployment.value.enabled then (Pass, w)
    else
      var d := model.spec.deployment.value;
      var key := KeyOf(model.meta);
      match w.services.Get(key)
      case Err(_) => CreateInferenceServiceSpec(w, model, version, image)
      case Ok(svc) =>
        var limits := Limits(d.cpu, d.memory);
        if svc.container.limits == limits then (Pass, w)
        else
          var updated := svc.(container := svc.container.(limits := limits));
          var (changed, services) := w.services.Update(key, updated, w.services.Version(key));
          if changed.Fail? then (changed, w)
          else
            var status := Transition(model.status, ModelStateDeploying,
              "InferenceServiceUpdated", "Inference service updated successfully");
            var (written, models) := w.models.Update(key, WithStatus(model, status), version);
            (written, World(models, services))
  }

  /** `ensureInferenceCleanup`: with a disabled deployment, delete the
      service and record NOT_DEPLOYED.  When the service is missing the
      delete is issued for an object without a name and fails. */
  function EnsureInferenceCleanupSpec(w: World, model: Model, version: nat): (Outcome, World)
  {
    if model.spec.deployment.None? || model.spec.deployment.value.enabled then (Pass, w)
    else
      var key := KeyOf(model.meta);
      var target := if key in w.services.objects then key else ObjectKey("", "");
      var (deleted, services) := w.services.Delete(target);
      if deleted.Fail? then (deleted, w)
      else
        var status := Transition(model.status, ModelStateNotDeployed,
          "InferenceServiceDeleted", "Inference service deleted successfully");
        var (written, models) := w.models.Update(key, WithStatus(model, status), version);
        (written, World(models, services))
  }

  /** Whether the model's inference service exists and reports ready. */
  function ServiceReady(w: World, model: Model): bool
  {
    var got := w.services.Get(KeyOf(model.meta));
    got.Ok? && got.value.ready
  }

  /** `ensureStatus`: a ready service moves the model to READY unless it is
      READY already; a missing or unready service changes nothing. */
  function EnsureStatusSpec(w: World, model: Model, version: nat): (Outcome, World)
  {
    if ServiceReady(w, model) && model.status.state == Some(ModelStateReady) then (Pass, w)
    else if ServiceReady(w, model) then
      var status := Transition(model.status, ModelStateReady,
        "InferenceServiceReady", "Inference service is ready");
      var (written, models) := w.models.Update(KeyOf(model.meta), WithStatus(model, status), version);
      (written, w.(models := models))
    else (Pass, w)
  }

  /** `Reconcile`: the result says whether to requeue. */
  function ReconcileSpec(w: World, key: ObjectKey, image: string): (Result<bool>, World)
  {
    match w.models.Get(key)
    case Err(_) => (Ok(false), w)
    case Ok(model) =>
      var version := w.models.Version(key);
      if model.status.state.None? then
        var status := model.status.(state := Some(ModelStateNotDeployed));
        var (written, models) := w.models.Update(KeyOf(model.meta), WithStatus(model, status), version);
        (if written.Fail? then Err(written.error) else Ok(true), w.(models := models))
      else
        var (o1, w1) := EnsureInferenceServiceSpec(w, model, version, image);
        if o1.Fail? then (Err(o1.error), w1)
        else
          var (o2, w2) := EnsureInferenceCleanupSpec(w1, model, version);
          if o2.Fail? then (Err(o2.error), w2)
          else
            var (o3, w3) := EnsureStatusSpec(w2, model, version);
            if o3.Fail? then (Err(o3.error), w3) else (Ok(false), w3)
  }

  /** `model` is stored under `key`, which is its own namespace and name. */
  predicate StoredAt(w: World, key: ObjectKey, model: Model)
  {
    key in w.models.objects && w.models.objects[key] == model && KeyOf(model.meta) == key
  }

  lemma MissingModelIsIgnored(w: World, key: ObjectKey, image: string)
    requires key !in w.models.objects
    ensures ReconcileSpec(w, key, image) == (Ok(false), w)
  {
  }

  /** A model without a state is marked NOT_DEPLOYED, without a condition,
      and the reconcile asks to be requeued without doing anything else. */
  lemma FirstReconcileRequeues(w: World, key: ObjectKey, model: Model, image: string)
    requires StoredAt(w, key, model) && model.status.state.None?
    ensures var (r, after) := ReconcileSpec(w, key, image);
      r == Ok(true) && after.services == w.services
      && after.models.Get(key) == Ok(model.(status := ModelStatus(Some(ModelStateNotDeployed), model.status.conditions)))
  {
  }

  /** Without a deployment spec the inference service is neither created
      nor deleted. */
  lemma NoDeploymentKeepsService(w: World, key: ObjectKey, model: Model, image: string)
    requires StoredAt(w, key, model) && model.status.state.Some?
    requires model.spec.deployment.None?
    ensures ReconcileSpec(w, key, image).1.services == w.services
  {
  }

  /** An enabled deployment without a service creates the service and moves
      the model to DEPLOYING with one condition. */
  lemma MissingServiceIsCreated(w: World, key: ObjectKey, model: Model, image: string)
    requires StoredAt(w, key, model) && model.status.state.Some?
    requires model.spec.deployment.Some? && model.spec.deployment.value.enabled
    requires key !in w.services.objects
    requires InferenceServiceFor(model, image).Ok?
    ensures var (r, after) := ReconcileSpec(w, key, image);
      r == Ok(false)
      && after.services.Get(key) == Ok(InferenceServiceFor(model, image).value)
      && after.models.Get(key) == Ok(WithStatus(model, Transition(model.status, ModelStateDeploying,
           "InferenceServiceCreated", "Inference service created successfully")))
  {
  }

  /** Only Hugging Face models get an inference service; any other type
      fails and nothing is written. */
  lemma UnsupportedTypeFails(w: World, key: ObjectKey, model: Model, image: string)
    requires StoredAt(w, key, model) && model.status.state.Some?
    requires model.spec.deployment.Some? && model.spec.deployment.value.enabled
    requires key !in w.services.objects
    requires model.spec.typ != ModelTypeHuggingFace
    ensures ReconcileSpec(w, key, image) == (Err(Message("unimplemented model type: " + model.spec.typ)), w)
  {
  }

  /** An existing service whose limits differ from the spec gets the spec's
      limits and the model moves to DEPLOYING; unless the service is ready
      while the model is not READY, the reconcile then succeeds. */
  lemma ChangedLimitsAreApplied(w: World, key: ObjectKey, model: Model, image: string)
    requires StoredAt(w, key, model) && model.status.state.Some?
    requires model.spec.deployment.Some? && model.spec.deployment.value.enabled
    requires key in w.services.objects
    requires var d := model.spec.deployment.value;
      w.services.objects[key].container.limits != Limits(d.cpu, d.memory)
    requires !w.services.objects[key].ready || model.status.state == Some(ModelStateReady)
    ensures var (r, after) := ReconcileSpec(w, key, image);
      var svc := w.services.objects[key];
      var d := model.spec.deployment.value;
      r == Ok(false)
      && after.services.Get(key) == Ok(svc.(container := svc.container.(limits := Limits(d.cpu, d.memory))))
      && after.models.Get(key) == Ok(WithStatus(model, Transition(model.status, ModelStateDeploying,
           "InferenceServiceUpdated", "Inference service updated successfully")))
  {
  }

  /** Because every step works on the copy read at the start, a ready
      service whose limits change makes `ensureStatus` write READY with the
      version the limits step already used up: the write conflicts, while
      the service update and the DEPLOYING status stay. */
  lemma StaleStatusWriteConflicts(w: World, key: ObjectKey, model: Model, image: string)
    requires StoredAt(w, key, model) && model.status.state.Some?
    requires model.status.state != Some(ModelStateReady)
    requires model.spec.deployment.Some? && model.spec.deployment.value.enabled
    requires key in w.services.objects && w.services.objects[key].ready
    requires var d := model.spec.deployment.value;
      w.services.objects[key].container.limits != Limits(d.cpu, d.memory)
    ensures var (r, after) := ReconcileSpec(w, key, image);
      r == Err(Conflict(key.name))
      && after.models.Get(key) == Ok(WithStatus(model, Transition(model.status, ModelStateDeploying,
           "InferenceServiceUpdated", "Inference service updated successfully")))
  {
  }

  /** Limits equal to the spec leave the service as it is. */
  lemma EqualLimitsKeepService(w: World, key: ObjectKey, model: Model, image: string)
    requires StoredAt(w, key, model) && model.status.state.Some?
    requires model.spec.deployment.Some? && model.spec.deployment.value.enabled
    requires key in w.services.objects
    requires var d := model.spec.deployment.value;
      w.services.objects[key].container.limits == Limits(d.cpu, d.memory)
    ensures ReconcileSpec(w, key, image).1.services == w.services
  {
  }

  /** A disabled deployment deletes the service and moves the model to
      NOT_DEPLOYED with one condition. */
  lemma DisabledServiceIsDeleted(w: World, key: ObjectKey, model: Model, image: string)
    requires StoredAt(w, key, model) && model.status.state.Some?
    requires model.spec.deployment.Some? && !model.spec.deployment.value.enabled
    requires key in w.services.objects && key.name != ""
    ensures var (r, after) := ReconcileSpec(w, key, image);
      r == Ok(false) && key !in after.services.objects
      && after.models.Get(key) == Ok(WithStatus(model, Transition(model.status, ModelStateNotDeployed,
           "InferenceServiceDeleted", "Inference service deleted successfully")))
  {
  }

  /** A disabled deployment whose service is already gone fails: the delete
      is issued for the empty object the failed read left behind. */
  lemma CleanupWithoutServiceFails(w: World, key: ObjectKey, model: Model, image: string)
    requires StoredAt(w, key, model) && model.status.state.Some?
    requires model.spec.deployment.Some? && !model.spec.deployment.value.enabled
    requires key !in w.services.objects
    ensures ReconcileSpec(w, key, image) == (Err(EmptyNameError), w)
  {
  }

  /** With nothing to deploy or clean up, a ready service moves the model
      to READY with one condition, unless it is READY already; an unready
      or missing service changes nothing. */
  lemma ReadyServiceIsReported(w: World, key: ObjectKey, model: Model, image: string)
    requires StoredAt(w, key, model) && model.status.state.Some?
    requires model.spec.deployment.None?
    ensures var (r, after) := ReconcileSpec(w, key, image);
      var ready := key in w.services.objects && w.services.objects[key].ready;
      r == Ok(false)
      && (ready && model.status.state != Some(ModelStateReady) ==>
            after.models.Get(key) == Ok(WithStatus(model, Transition(model.status, ModelStateReady,
              "InferenceServiceReady", "Inference service is ready"))))
      && (!ready || model.status.state == Some(ModelStateReady) ==> after == w)
  {
  }

  /** The reconciler, over the cluster's models and inference services. */
  class ModelReconciler {
    const models: Collection<Model>
    const services: Collection<InferenceService>
    const modelDeployerImage: string

    constructor(models: Collection<Model>, services: Collection<InferenceService>, image: string)
      ensures this.models == models && this.services == services && modelDeployerImage == image
    {
      this.models := models;
      this.services := services;
      modelDeployerImage := image;
    }

    function Snapshot(): World
      reads models, services
    {
      World(models.store, services.store)
    }

    method Reconcile(key: ObjectKey) returns (r: Result<bool>)
      modifies models, services
      ensures (r, Snapshot()) == ReconcileSpec(old(Snapshot()), key, modelDeployerImage)
    {
      var got := models.store.Get(key);
      if got.Err? {
        return Ok(false);
      }
      var model := got.value;
      var version := models.store.Version(key);
      if model.status.state.None? {
        var status := model.status.(state := Some(ModelStateNotDeployed));
        var written := models.Update(KeyOf(model.meta), WithStatus(model, status), version);
        if written.Fail? {
          return Err(written.error);
        }
        return Ok(true);
      }
      var o := EnsureInferenceService(model, version);
      if o.Fail? {
        return Err(o.error);
      }
      o := EnsureInferenceCleanup(model, version);
      if o.Fail? {
        return Err(o.error);
      }
      o := EnsureStatus(model, version);
      if o.Fail? {
        return Err(o.error);
      }
      return Ok(false);
    }

    method EnsureInferenceService(model: Model, version: nat) returns (r: Outcome)
      modifies models, services
      ensures (r, Snapshot()) == EnsureInferenceServiceSpec(old(Snapshot()), model, version, modelDeployerImage)
    {
      if model.spec.deployment.None? || !model.spec.deployment.value.enabled {
        return Pass;
      }
      var d := model.spec.deployment.value;
      var key := KeyOf(model.meta);
      var got := services.store.Get(key);
      if got.Err? {
        r := CreateInferenceService(model, version);
        return;
      }
      var svc := got.value;
      var limits := Limits(d.cpu, d.memory);
      if svc.container.limits == limits {
        return Pass;
      }
      var updated := svc.(container := svc.container.(limits := limits));
      r := services.Update(key, updated, services.store.Version(key));
      if r.Fail? {
        return;
      }
      var status := Transition(model.status, ModelStateDeploying,
        "InferenceServiceUpdated", "Inference service updated successfully");
      r := models.Update(key, WithStatus(model, status), version);
    }

    method CreateInferenceService(model: Model, version: nat) returns (r: Outcome)
      modifies models, services
      ensures (r, Snapshot()) == CreateInferenceServiceSpec(old(Snapshot()), model, version, modelDeployerImage)
    {
      var built := InferenceServiceFor(model, modelDeployerImage);
      if built.Err? {
        return Fail(built.error);
      }
      var svc := built.value;
      r := services.Create(KeyOf(svc.meta), svc);
      if r.Fail? {
        return;
      }
      var status := Transition(model.status, ModelStateDeploying,
        "InferenceServiceCreated", "Inference service created successfully");
      r := models.Update(KeyOf(model.meta), WithStatus(model, status), version);
    }

    method EnsureInferenceCleanup(model: Model, version: nat) returns (r: Outcome)
      modifies models, services
      ensures (r, Snapshot()) == EnsureInferenceCleanupSpec(old(Snapshot()), model, version)
    {
      if model.spec.deployment.None? || model.spec.deployment.value.enabled {
        return Pass;
      }
      var key := KeyOf(model.meta);
      // a failed Get leaves the object to delete empty
      var target := ObjectKey("", "");
      if services.store.Get(key).Ok? {
        target := key;
      }
      r := services.Delete(target);
      if r.Fail? {
        return;
      }
      var status := Transition(model.status, ModelStateNotDeployed,
        "InferenceServiceDeleted", "Inference service deleted successfully");
      r := models.Update(key, WithStatus(model, status), version);
    }

    method EnsureStatus(model: Model, version: nat) returns (r: Outcome)
      modifies models
      ensures (r, Snapshot()) == EnsureStatusSpec(old(Snapshot()), model, version)
    {
      var got := services.store.Get(KeyOf(model.meta));
      var ready := got.Ok? && got.value.ready;
      if ready && model.status.state == Some(ModelStateReady) {
        return Pass;
      }
      if ready {
        var status := Transition(model.status, ModelStateReady,
          "InferenceServiceReady", "Inference service is ready");
        r := models.Update(KeyOf(model.meta), WithStatus(model, status), version);
        return;
      }
      return Pass;
    }
  }
}
