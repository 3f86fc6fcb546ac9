/** The custom resources of the operator (group cloud.encoder.run, version
    v1alpha1).  Their `State` fields are optional strings because the Go
    fields are pointers to named string types. */
module CloudApi {
  import opened Wrappers
  import opened Kube

  const ModelTypeHuggingFace := "HUGGINGFACE"
  const ModelTypeExternal := "EXTERNAL"

  const ModelStateNotDeployed := "NOT_DEPLOYED"
  const ModelStateDeploying := "DEPLOYING"
  const ModelStateReady := "READY"
  const ModelStateError := "ERROR"

  const StorageTypeRedis := "REDIS"
  const StorageTypePostgres := "POSTGRES"
  const StorageTypeElasticsearch := "ELASTICSEARCH"

  const StorageStateNotDeployed := "NOT_DEPLOYED"
  const StorageStateDeploying := "DEPLOYING"
  const StorageStateReady := "READY"
  const StorageStateError := "ERROR"

  const PipelineTypeRepositoryEmbeddings := "REPOSITORY_EMBEDDINGS"

  const PipelineStateNotDeployed := "NOT_DEPLOYED"
  const PipelineStateDeploying := "DEPLOYING"
  const PipelineStateReady := "READY"
  const PipelineStateError := "ERROR"
  /** Used by the pipeline controller but not declared with the other
      pipeline states; the model gives it the text "RUNNING". */
  const PipelineStateRunning := "RUNNING"

  const PipelineExecutionStateActive := "ACTIVE"
  const PipelineExecutionStateSucceeded := "SUCCEEDED"
  const PipelineExecutionStateFailed := "FAILED"
  const PipelineExecutionStatePending := "PENDING"

  const RepositoryTypeGithub := "GITHUB"
  const RepositoryTypeGitlab := "GITLAB"
  const RepositoryTypeBitbucket := "BITBUCKET"

  /** The deployment spec shared by models and storages; CPU and memory are
      quantities. */
  datatype DeploymentSpec = DeploymentSpec(enabled: bool, cpu: string, memory: string)

  datatype HuggingFaceModelSpec = HuggingFaceModelSpec(organization: string, name: string, maxSequenceLength: int)
  datatype ModelSpec = ModelSpec(typ: string, huggingFace: Option<HuggingFaceModelSpec>, deployment: Option<DeploymentSpec>)
  datatype ModelStatus = ModelStatus(state: Option<string>, conditions: seq<Condition>)
  datatype Model = Model(meta: ObjectMeta, spec: ModelSpec, status: ModelStatus)

  /** `Spec.Postgres` is read by the storage controller and converter but is
      not declared in the storage type file; the model adds it. */
  datatype PostgresSpec = PostgresSpec(external: bool)
  datatype StorageSpec = StorageSpec(
    typ: string, name: string, deployment: Option<DeploymentSpec>, postgres: Option<PostgresSpec>)
  datatype StorageStatus = StorageStatus(state: Option<string>, conditions: seq<Condition>)
  datatype Storage = Storage(meta: ObjectMeta, spec: StorageSpec, status: StorageStatus)

  datatype RepositoryEmbeddingsSpec = RepositoryEmbeddingsSpec(
    repository: ObjectReference, model: ObjectReference, storage: ObjectReference)
  datatype PipelineSpec = PipelineSpec(
    name: string, typ: string, enabled: bool, repositoryEmbeddings: Option<RepositoryEmbeddingsSpec>)
  datatype PipelineStatus = PipelineStatus(state: Option<string>)
  datatype Pipeline = Pipeline(meta: ObjectMeta, spec: PipelineSpec, status: PipelineStatus)

  datatype PipelineExecutionSpec = PipelineExecutionSpec(pipelineRef: ObjectReference, metadata: map<string, string>)
  datatype PipelineExecutionStatus = PipelineExecutionStatus(state: Option<string>, conditions: seq<Condition>)
  datatype PipelineExecution = PipelineExecution(
    meta: ObjectMeta, spec: PipelineExecutionSpec, status: PipelineExecutionStatus)

  datatype GithubRepositorySpec = GithubRepositorySpec(owner: string, name: string, url: string, branch: string)
  datatype RepositorySpec = RepositorySpec(typ: string, github: Option<GithubRepositorySpec>)
  datatype Repository = Repository(meta: ObjectMeta, spec: RepositorySpec)
}
