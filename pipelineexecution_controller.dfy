/** The PipelineExecution controller: runs one repository-embedder Job per
    execution of an enabled pipeline and mirrors the Job's counters in the
    execution's state. */
module PipelineExecutionController {
  import opened Wrappers
  import opened Kube
  import opened CloudApi
  import opened Cluster

  /** The objects the execution controller reads and writes. */
  datatype World = World(executions: Store<PipelineExecution>, pipelines: Store<Pipeline>, jobs: Store<Job>)

  const WorkerServiceAccount := "pipeline-worker"
  const EmbedderContainer := "repoembedder-container"
  const RestartPolicyNever := "Never"

  function WithState(pe: PipelineExecution, state: string): (r: PipelineExecution)
    ensures r.status.state == Some(state) && r.status.conditions == pe.status.conditions
    ensures r.meta == pe.meta && r.spec == pe.spec
  {
    pe.(status := pe.status.(state := Some(state)))
  }

  /** The Job `ensureJob` creates for an execution: named after it, labelled
      with the pipeline, never retried, and running the embedder image with
      the pipeline's storage, repository and model as arguments.  A pipeline
      without a repository-embeddings spec is dereferenced regardless. */
  function JobFor(pe: PipelineExecution, pipeline: Pipeline, image: string): (r: Result<Job>)
    ensures r.Ok? <==> pipeline.spec.repositoryEmbeddings.Some?
    ensures r.Ok? ==>
      var re := pipeline.spec.repositoryEmbeddings.value;
      var job := r.value;
      KeyOf(job.meta) == KeyOf(pe.meta)
      && job.meta.labels == map["pipelineId" := pe.spec.pipelineRef.name]
      && job.backoffLimit == 0 && job.restartPolicy == RestartPolicyNever
      && job.serviceAccount == WorkerServiceAccount
      && job.container.name == EmbedderContainer && job.container.image == image
      && job.container.command == ["./main"]
      && job.container.args == ["--storageId=" + re.storage.name, "--repositoryId=" + re.repository.name,
                                "--modelId=" + re.model.name]
      && job.succeeded == 0 && job.failed == 0 && job.active == 0
  {
    if pipeline.spec.repositoryEmbeddings.None? then
      Err(Panic("nil pointer dereference: Spec.RepositoryEmbeddings"))
    else
      var re := pipeline.spec.repositoryEmbeddings.value;
      Ok(Job(
        ObjectMeta(pe.meta.name, "", pe.meta.namespace, map["pipelineId" := pe.spec.pipelineRef.name]),
        0, WorkerServiceAccount,
        Container(EmbedderContainer, image, ["./main"],
          ["--storageId=" + re.storage.name, "--repositoryId=" + re.repository.name,
           "--modelId=" + re.model.name],
          Limits("", "")),
        RestartPolicyNever, 0, 0, 0))
  }

  /** The execution state a Job's counters give: SUCCEEDED before FAILED
      before ACTIVE, and the empty state when all three are zero. */
  function JobState(job: Job): (s: string)
    ensures job.succeeded > 0 ==> s == PipelineExecutionStateSucceeded
    ensures job.succeeded == 0 && job.failed > 0 ==> s == PipelineExecutionStateFailed
    ensures job.succeeded == 0 && job.failed == 0 && job.active > 0 ==> s == PipelineExecutionStateActive
    ensures job.succeeded == 0 && job.failed == 0 && job.active == 0 ==> s == ""
  {
    if job.succeeded > 0 then PipelineExecutionStateSucceeded
    else if job.failed > 0 then PipelineExecutionStateFailed
    else if job.active > 0 then PipelineExecutionStateActive
    else ""
  }

  /** `ensureJob`: create the Job unless one of the execution's name
      exists. */
  function EnsureJobSpec(w: World, pe: PipelineExecution, pipeline: Pipeline, image: string): (Outcome, World)
  {
    var jobKey := KeyOf(pe.meta);
    if jobKey in w.jobs.objects then (Pass, w)
    else
      match JobFor(pe, pipeline, image)
      case Err(e) => (Fail(e), w)
      case Ok(job) =>
        var (o, jobs) := w.jobs.Create(jobKey, job);
        (o, w.(jobs := jobs))
  }

  /** `ensureStatus`: write the state of the execution's Job, if it has
      one. */
  function EnsureStatusSpec(w: World, pe: PipelineExecution, version: nat): (Outcome, World)
  {
    match w.jobs.Get(KeyOf(pe.meta))
    case Err(e) => (IgnoreNotFound(Fail(e)), w)
    case Ok(job) =>
      var (o, executions) := w.executions.Update(KeyOf(pe.meta), WithState(pe, JobState(job)), version);
      (o, w.(executions := executions))
  }

  /** `Reconcile`: a missing execution or pipeline ends the reconcile;
      a disabled pipeline makes the execution PENDING; otherwise the Job is
      ensured and its state reported. */
  function ReconcileSpec(w: World, key: ObjectKey, image: string): (Outcome, World)
  {
    match w.executions.Get(key)
    case Err(e) => (IgnoreNotFound(Fail(e)), w)
    case Ok(pe) =>
      var version := w.executions.Version(key);
      match w.pipelines.Get(ObjectKey(pe.meta.namespace, pe.spec.pipelineRef.name))
      case Err(e) => (IgnoreNotFound(Fail(e)), w)
      case Ok(pipeline) =>
        if !pipeline.spec.enabled then
          var (o, executions) := w.executions.Update(KeyOf(pe.meta), WithState(pe, PipelineExecutionStatePending), version);
          (o, w.(executions := executions))
        else
          var (o1, w1) := EnsureJobSpec(w, pe, pipeline, image);
          if o1.Fail? then (o1, w1)
          else EnsureStatusSpec(w1, pe, version)
  }

  /** `pe` is stored under `key`, which is its own namespace and name. */
  predicate StoredAt(w: World, key: ObjectKey, pe: PipelineExecution)
  {
    key in w.executions.objects && w.executions.objects[key] == pe && KeyOf(pe.meta) == key
  }

  function PipelineKey(pe: PipelineExecution): ObjectKey
  {
    ObjectKey(pe.meta.namespace, pe.spec.pipelineRef.name)
  }

  /** A missing execution, or an execution whose pipeline is missing, ends
      the reconcile without an error or a change. */
  lemma MissingObjectsAreIgnored(w: World, key: ObjectKey, image: string)
    requires key !in w.executions.objects
             || PipelineKey(w.executions.objects[key]) !in w.pipelines.objects
    ensures ReconcileSpec(w, key, image) == (Pass, w)
  {
  }

  /** An execution of a disabled pipeline becomes PENDING and no Job is
      created. */
  lemma DisabledPipelineIsPending(w: World, key: ObjectKey, pe: PipelineExecution, image: string)
    requires StoredAt(w, key, pe) && PipelineKey(pe) in w.pipelines.objects
    requires !w.pipelines.objects[PipelineKey(pe)].spec.enabled
    ensures var (r, after) := ReconcileSpec(w, key, image);
      r == Pass && after.jobs == w.jobs && after.pipelines == w.pipelines
      && after.executions.Get(key) == Ok(WithState(pe, PipelineExecutionStatePending))
  {
  }

  /** The first reconcile of an execution of an enabled pipeline creates its
      Job and, the new Job having no counters yet, writes the empty state. */
  lemma FirstRunCreatesJob(w: World, key: ObjectKey, pe: PipelineExecution, image: string)
    requires StoredAt(w, key, pe) && PipelineKey(pe) in w.pipelines.objects
    requires w.pipelines.objects[PipelineKey(pe)].spec.enabled
    requires w.pipelines.objects[PipelineKey(pe)].spec.repositoryEmbeddings.Some?
    requires key !in w.jobs.objects
    ensures var (r, after) := ReconcileSpec(w, key, image);
      r == Pass
      && after.jobs.Get(key) == JobFor(pe, w.pipelines.objects[PipelineKey(pe)], image)
      && after.executions.Get(key) == Ok(WithState(pe, ""))
  {
  }

  /** An existing Job is left as it is and its counters give the state. */
  lemma ExistingJobIsKept(w: World, key: ObjectKey, pe: PipelineExecution, image: string)
    requires StoredAt(w, key, pe) && PipelineKey(pe) in w.pipelines.objects
    requires w.pipelines.objects[PipelineKey(pe)].spec.enabled
    requires key in w.jobs.objects
    ensures var (r, after) := ReconcileSpec(w, key, image);
      r == Pass && after.jobs == w.jobs
      && after.executions.Get(key) == Ok(WithState(pe, JobState(w.jobs.objects[key])))
  {
  }

  /** Without a Job, `ensureStatus` changes nothing. */
  lemma NoJobNoStatus(w: World, pe: PipelineExecution, version: nat)
    requires KeyOf(pe.meta) !in w.jobs.objects
    ensures EnsureStatusSpec(w, pe, version) == (Pass, w)
  {
  }

  /** The execution controller, over the cluster's executions, pipelines and
      Jobs. */
  class PipelineExecutionReconciler {
    const executions: Collection<PipelineExecution>
    const pipelines: Collection<Pipeline>
    const jobs: Collection<Job>
    const repositoryEmbedderImage: string

    constructor(executions: Collection<PipelineExecution>, pipelines: Collection<Pipeline>,
                jobs: Collection<Job>, image: string)
      ensures this.executions == executions && this.pipelines == pipelines && this.jobs == jobs
      ensures repositoryEmbedderImage == image
    {
      this.executions := executions;
      this.pipelines := pipelines;
      this.jobs := jobs;
      repositoryEmbedderImage := image;
    }

    function Snapshot(): World
      reads executions, pipelines, jobs
    {
      World(executions.store, pipelines.store, jobs.store)
    }

    method Reconcile(key: ObjectKey) returns (r: Outcome)
      modifies executions, jobs
      ensures (r, Snapshot()) == ReconcileSpec(old(Snapshot()), key, repositoryEmbedderImage)
    {
      var got := executions.store.Get(key);
      if got.Err? {
        return IgnoreNotFound(Fail(got.error));
      }
      var pe := got.value;
      var version := executions.store.Version(key);
      var gotPipeline := pipelines.store.Get(ObjectKey(pe.meta.namespace, pe.spec.pipelineRef.name));
      if gotPipeline.Err? {
        return IgnoreNotFound(Fail(gotPipeline.error));
      }
      var pipeline := gotPipeline.value;
      if !pipeline.spec.enabled {
        r := executions.Update(KeyOf(pe.meta), WithState(pe, PipelineExecutionStatePending), version);
        return;
      }
      r := EnsureJob(pe, pipeline);
      if r.Fail? {
        return;
      }
      r := EnsureStatus(pe, version);
    }

    method EnsureJob(pe: PipelineExecution, pipeline: Pipeline) returns (r: Outcome)
      modifies jobs
      ensures (r, Snapshot()) == EnsureJobSpec(old(Snapshot()), pe, pipeline, repositoryEmbedderImage)
    {
      var jobKey := KeyOf(pe.meta);
      var got := jobs.store.Get(jobKey);
      if got.Ok? {
        return Pass;
      }
      var job := JobFor(pe, pipeline, repositoryEmbedderImage);
      if job.Err? {
        return Fail(job.error);
      }
      r := jobs.Create(jobKey, job.value);
    }

    method EnsureStatus(pe: PipelineExecution, version: nat) returns (r: Outcome)
      modifies executions
      ensures (r, Snapshot()) == EnsureStatusSpec(old(Snapshot()), pe, version)
    {
      var got := jobs.store.Get(KeyOf(pe.meta));
      if got.Err? {
        return IgnoreNotFound(Fail(got.error));
      }
      r := executions.Update(KeyOf(pe.meta), WithState(pe, JobState(got.value)), version);
    }
  }
}
