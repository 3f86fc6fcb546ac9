/** Conversions between Pipeline and PipelineExecution resources and the
    API. */
module PipelineConverters {
  import opened Wrappers
  import opened Kube
  import Api = GqlModel
  import Crd = CloudApi

  /** `PipelineInputToCRD`: a new, disabled pipeline named by the server from
      the prefix "pipeline-", whose references all point into namespace
      "default". */
  function PipelineInputToCrd(input: Api.AddPipelineInput): (r: Result<Crd.Pipeline>)
    ensures input.typ != Api.PipelineTypeRepositoryEmbeddings ==>
      r == Err(Message("unsupported model type: " + input.typ))
    ensures input.typ == Api.PipelineTypeRepositoryEmbeddings && input.repositoryEmbeddings.None? ==>
      r.Err? && r.error.Panic?
    ensures r.Ok? <==> input.typ == Api.PipelineTypeRepositoryEmbeddings && input.repositoryEmbeddings.Some?
    ensures r.Ok? ==>
      var re := input.repositoryEmbeddings.value;
      var p := r.value;
      p.meta == GeneratedMeta("default", "pipeline-")
      && p.spec.name == input.name && p.spec.typ == Crd.PipelineTypeRepositoryEmbeddings && !p.spec.enabled
      && p.spec.repositoryEmbeddings == Some(Crd.RepositoryEmbeddingsSpec(
           ObjectReference(re.repositoryId, "default"),
           ObjectReference(re.modelId, "default"),
           ObjectReference(re.storageId, "default")))
      && p.status.state.None?
  {
    if input.typ == Api.PipelineTypeRepositoryEmbeddings then
      match input.repositoryEmbeddings
      case None => Err(Panic("nil pointer dereference: input.RepositoryEmbeddings"))
      case Some(re) =>
        var refs := Crd.RepositoryEmbeddingsSpec(
          ObjectReference(re.repositoryId, "default"),
          ObjectReference(re.modelId, "default"),
          ObjectReference(re.storageId, "default"));
        Ok(Crd.Pipeline(GeneratedMeta("default", "pipeline-"),
                        Crd.PipelineSpec(input.name, Crd.PipelineTypeRepositoryEmbeddings, false, Some(refs)),
                        Crd.PipelineStatus(None)))
    else
      Err(Message("unsupported model type: " + input.typ))
  }

  /** The API status of a stored pipeline state: none means NOT_DEPLOYED and
      the four declared states map to themselves. */
  function PipelineStatusOf(state: Option<string>): (r: Result<string>)
    ensures state.None? ==> r == Ok(Api.PipelineStatusNotDeployed)
    ensures state.Some? ==>
      (r.Ok? <==> state.value in {Crd.PipelineStateNotDeployed, Crd.PipelineStateDeploying,
                                  Crd.PipelineStateReady, Crd.PipelineStateError})
    ensures state.Some? && r.Ok? ==> r.value == state.value
    ensures r.Ok? ==> Api.IsValid(Api.PipelineStatus, r.value)
    ensures r.Err? ==> r.error == Message("unknown pipeline state: " + state.value)
  {
    match state
    case None => Ok(Api.PipelineStatusNotDeployed)
    case Some(s) =>
      if s == Crd.PipelineStateNotDeployed then Ok(Api.PipelineStatusNotDeployed)
      else if s == Crd.PipelineStateDeploying then Ok(Api.PipelineStatusDeploying)
      else if s == Crd.PipelineStateReady then Ok(Api.PipelineStatusReady)
      else if s == Crd.PipelineStateError then Ok(Api.PipelineStatusError)
      else Err(Message("unknown pipeline state: " + s))
  }

  /** `PipelineCRDToModel`.  The type is checked before the references are
      read; a repository-embeddings pipeline without its spec panics. */
  function PipelineCrdToModel(p: Crd.Pipeline): (r: Result<Api.Pipeline>)
    ensures p.spec.typ != Crd.PipelineTypeRepositoryEmbeddings ==>
      r == Err(Message("unknown pipeline type: " + p.spec.typ))
    ensures r.Ok? <==>
      p.spec.typ == Crd.PipelineTypeRepositoryEmbeddings && p.spec.repositoryEmbeddings.Some?
      && PipelineStatusOf(p.status.state).Ok?
    ensures r.Ok? ==>
      var re := p.spec.repositoryEmbeddings.value;
      r.value == Api.Pipeline(p.meta.name, p.spec.name, Api.PipelineTypeRepositoryEmbeddings, p.spec.enabled,
                              PipelineStatusOf(p.status.state).value,
                              Some(Api.RepositoryEmbeddings(re.repository.name, re.model.name, re.storage.name)))
  {
    if p.spec.typ != Crd.PipelineTypeRepositoryEmbeddings then
      Err(Message("unknown pipeline type: " + p.spec.typ))
    else
      match p.spec.repositoryEmbeddings
      case None => Err(Panic("nil pointer dereference: Spec.RepositoryEmbeddings"))
      case Some(re) =>
        var status :- PipelineStatusOf(p.status.state);
        Ok(Api.Pipeline(p.meta.name, p.spec.name, Api.PipelineTypeRepositoryEmbeddings, p.spec.enabled, status,
                        Some(Api.RepositoryEmbeddings(re.repository.name, re.model.name, re.storage.name))))
  }

  /** An accepted input read back through the API keeps its name, type and
      the three ids, is disabled and NOT_DEPLOYED. */
  lemma PipelineInputRoundTrip(input: Api.AddPipelineInput, name: string)
    requires PipelineInputToCrd(input).Ok?
    ensures var crd := PipelineInputToCrd(input).value;
      PipelineCrdToModel(crd.(meta := crd.meta.(name := name)))
        == Ok(Api.Pipeline(name, input.name, input.typ, false, Api.PipelineStatusNotDeployed,
                           Some(Api.RepositoryEmbeddings(input.repositoryEmbeddings.value.repositoryId,
                                                         input.repositoryEmbeddings.value.modelId,
                                                         input.repositoryEmbeddings.value.storageId))))
  {
  }

  /** The state the pipeline controller writes for running executions is not
      one the converter accepts. */
  lemma RunningIsRejected()
    ensures PipelineStatusOf(Some(Crd.PipelineStateRunning))
      == Err(Message("unknown pipeline state: RUNNING"))
  {
  }

  /** The API status of a stored execution state: none means PENDING;
      ACTIVE, SUCCEEDED and FAILED map to themselves; a stored PENDING, like
      any other text, is an error. */
  function ExecutionStatusOf(state: Option<string>): (r: Result<string>)
    ensures state.None? ==> r == Ok(Api.PipelineExecutionStatusPending)
    ensures state.Some? ==>
      (r.Ok? <==> state.value in {Crd.PipelineExecutionStateActive, Crd.PipelineExecutionStateSucceeded,
                                  Crd.PipelineExecutionStateFailed})
    ensures state.Some? && r.Ok? ==> r.value == state.value
    ensures r.Ok? ==> Api.IsValid(Api.PipelineExecutionStatus, r.value)
    ensures r.Err? ==> r.error == Message("unknown pipeline execution state: " + state.value)
  {
    match state
    case None => Ok(Api.PipelineExecutionStatusPending)
    case Some(s) =>
      if s == Crd.PipelineExecutionStateActive then Ok(Api.PipelineExecutionStatusActive)
      else if s == Crd.PipelineExecutionStateSucceeded then Ok(Api.PipelineExecutionStatusSucceeded)
      else if s == Crd.PipelineExecutionStateFailed then Ok(Api.PipelineExecutionStatusFailed)
      else Err(Message("unknown pipeline execution state: " + s))
  }

  /** `PipelineExecutionCRDToModel`. */
  function PipelineExecutionCrdToModel(pe: Crd.PipelineExecution): (r: Result<Api.PipelineExecution>)
    ensures r.Ok? <==> ExecutionStatusOf(pe.status.state).Ok?
    ensures r.Ok? ==> r.value.id == pe.meta.name && r.value.status == ExecutionStatusOf(pe.status.state).value
    ensures r.Err? ==> r.error == ExecutionStatusOf(pe.status.state).error
  {
    var status :- ExecutionStatusOf(pe.status.state);
    Ok(Api.PipelineExecution(pe.meta.name, status))
  }

  /** A PENDING state written to an execution, and the empty state its
      controller writes when a job has no counters, cannot be read back. */
  lemma StoredPendingIsRejected()
    ensures ExecutionStatusOf(Some(Crd.PipelineExecutionStatePending)).Err?
    ensures ExecutionStatusOf(Some("")).Err?
  {
  }
}
