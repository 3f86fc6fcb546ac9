/** The model resolver of the mock server: the `models` array and
    `ModelApi`. */
module MockModel {
  import opened Wrappers
  import opened MockArrays
  import Api = GqlModel

  const ModelNotFound := Message("Model not found")

  function ModelId(m: Api.Model): string { m.id }

  /** The array the module starts with. */
  const InitialModels: seq<Api.Model> := [
    Api.Model("1", Api.ModelTypeHuggingface, "jinaai/jina-embeddings-v2-base-code", Api.ModelStatusNotDeployed, None, None),
    Api.Model("2", Api.ModelTypeHuggingface, "distilbert/distilbert-base-uncased", Api.ModelStatusReady, None,
              Some(Api.ModelDeployment(true, "1", "1G"))),
    Api.Model("3", Api.ModelTypeExternal, "openai/gpt-3", Api.ModelStatusDeploying, None,
              Some(Api.ModelDeployment(true, "1", "1G"))),
    Api.Model("4", Api.ModelTypeHuggingface, "jinaai/jina-embeddings-v3-base-code", Api.ModelStatusDeploying, None,
              Some(Api.ModelDeployment(true, "1", "1G")))
  ]

  /** `AddModelDeploymentInput`. */
  datatype DeploymentInput = DeploymentInput(id: string, cpu: string, memory: string)

  /** The record `addModel` pushes onto `models`. */
  function NewModel(models: seq<Api.Model>, input: Api.AddModelInput): Api.Model
  {
    Api.Model(NextId(|models|), input.typ, "Org+Repo", Api.ModelStatusNotDeployed, None, None)
  }

  /** The assignment `addDeployment` makes to the model it found. */
  function Deploy(cpu: string, memory: string): Api.Model -> Api.Model
  {
    (m: Api.Model) => m.(deployment := Some(Api.ModelDeployment(true, cpu, memory)))
  }

  class ModelApi {
    var models: seq<Api.Model>

    constructor()
      ensures models == InitialModels
    {
      models := InitialModels;
    }

    /** `getModel`: the first model with the id, or 'Model not found'. */
    method GetModel(id: string) returns (r: Result<Api.Model>)
      ensures r.Err? <==> forall j :: 0 <= j < |models| ==> models[j].id != id
      ensures r.Err? ==> r.error == ModelNotFound
      ensures r.Ok? ==> (r.value.id == id
        && exists i :: 0 <= i < |models| && models[i] == r.value && forall j :: 0 <= j < i ==> models[j].id != id)
    {
      r := Find(models, id, ModelId, ModelNotFound);
    }

    /** `addModel`: pushes a model with the next id, the fixed display name
        "Org+Repo", the input's type and status NOT_DEPLOYED, and returns
        it. */
    method AddModel(input: Api.AddModelInput) returns (m: Api.Model)
      modifies this
      ensures m == Api.Model(NextId(|old(models)|), input.typ, "Org+Repo", Api.ModelStatusNotDeployed, None, None)
      ensures models == old(models) + [m]
    {
      m := NewModel(models, input);
      models := models + [m];
    }

    /** `addDeployment`: the first model with the id gets an enabled
        deployment with the input's cpu and memory and is returned; no such
        model is 'Model not found' and changes nothing. */
    method AddDeployment(input: DeploymentInput) returns (r: Result<Api.Model>)
      modifies this
      ensures match Update(old(models), input.id, ModelId, Deploy(input.cpu, input.memory))
        case None => r == Err(ModelNotFound) && models == old(models)
        case Some((ms, m)) => r == Ok(m) && models == ms
    {
      match Update(models, input.id, ModelId, Deploy(input.cpu, input.memory))
      case None =>
        r := Err(ModelNotFound);
      case Some((ms, m)) =>
        models := ms;
        r := Ok(m);
    }

    /** `deleteModel`: the first model with the id is spliced out and
        returned; no such model is 'Model not found' and changes nothing. */
    method DeleteModel(id: string) returns (r: Result<Api.Model>)
      modifies this
      ensures var (rest, gone) := Splice(old(models), id, ModelId);
        models == rest && r == (if gone.None? then Err(ModelNotFound) else Ok(gone.value))
    {
      var (rest, gone) := Splice(models, id, ModelId);
      models := rest;
      r := if gone.None? then Err(ModelNotFound) else Ok(gone.value);
    }
  }

  /** A new model is found by its id afterwards when no model had its id
      yet, and its deployment, once added, is enabled with the given
      resources. */
  lemma AddThenDeploy(models: seq<Api.Model>, input: Api.AddModelInput, cpu: string, memory: string)
    requires forall j :: 0 <= j < |models| ==> models[j].id != NextId(|models|)
    ensures var m := NewModel(models, input);
      Find(models + [m], m.id, ModelId, ModelNotFound) == Ok(m)
      && Update(models + [m], m.id, ModelId, Deploy(cpu, memory))
         == Some(((models + [m])[|models| := Deploy(cpu, memory)(m)], Deploy(cpu, memory)(m)))
      && Deploy(cpu, memory)(m).deployment == Some(Api.ModelDeployment(true, cpu, memory))
  {
    var m := NewModel(models, input);
    FindPushed(models, m, ModelId, ModelNotFound);
    var ys := models + [m];
    assert FindIndex(ys, m.id, ModelId) == |models|;
  }

  /** As written, deleting model '1' from the initial array and adding a
      model gives the new model the id '4', which the last initial model
      still has. */
  lemma DeleteThenAddRepeatsId(input: Api.AddModelInput)
    ensures var rest := Splice(InitialModels, "1", ModelId).0;
      var m := NewModel(rest, input);
      m.id == "4" && rest[2].id == "4" && !DistinctIds(rest + [m], ModelId)
  {
    var rest := Splice(InitialModels, "1", ModelId).0;
    assert FindIndex(InitialModels, "1", ModelId) == 0;
    assert rest == InitialModels[1..];
    var m := NewModel(rest, input);
    assert NextId(3) == "4";
    assert (rest + [m])[2] == rest[2] && (rest + [m])[3] == m;
  }

  /** The record `addModel` evidently means to push: one whose id no other
      model has. */
  function NewModelIntended(models: seq<Api.Model>, input: Api.AddModelInput): Api.Model
  {
    Api.Model(FreshId(IdsOf(models, ModelId)), input.typ, "Org+Repo", Api.ModelStatusNotDeployed, None, None)
  }

  /** With fresh ids every model keeps an id of its own, whatever was
      deleted before, and the new model is what `getModel` of its id
      returns. */
  lemma AddModelIntendedKeepsIdsDistinct(models: seq<Api.Model>, input: Api.AddModelInput)
    requires DistinctIds(models, ModelId)
    ensures var m := NewModelIntended(models, input);
      DistinctIds(models + [m], ModelId) && Find(models + [m], m.id, ModelId, ModelNotFound) == Ok(m)
  {
    var m := NewModelIntended(models, input);
    var ids := IdsOf(models, ModelId);
    PushFreshKeepsIdsDistinct(models, m, ModelId);
    forall j | 0 <= j < |models| ensures models[j].id != m.id {
      assert ids[j] == models[j].id;
    }
    FindPushed(models, m, ModelId, ModelNotFound);
  }
}

/** The storage resolver of the mock server: the `storages` array and
    `StorageApi`. */
module MockStorage {
  import opened Wrappers
  import opened MockArrays
  import Api = GqlModel

  const StorageNotFound := Message("Storage not found")

  function StorageId(s: Api.Storage): string { s.id }

  /** The array the module starts with; its first id is '10'. */
  const InitialStorages: seq<Api.Storage> := [
    Api.Storage("10", "Redis-dev", Api.StorageTypeRedis, Api.StorageStatusReady, None),
    Api.Storage("2", "Postgres-prod", Api.StorageTypePostgres, Api.StorageStatusDeploying, None),
    Api.Storage("3", "Elasticsearch-test", Api.StorageTypeElasticsearch, Api.StorageStatusNotDeployed, None)
  ]

  /** `AddStorageDeploymentInput`. */
  datatype DeploymentInput = DeploymentInput(id: string, cpu: string, memory: string)

  /** The record `addStorage` pushes onto `storages`; only the input's type
      and name are read. */
  function NewStorage(storages: seq<Api.Storage>, input: Api.AddStorageInput): Api.Storage
  {
    Api.Storage(NextId(|storages|), input.name, input.typ, Api.StorageStatusNotDeployed, None)
  }

  function Deploy(cpu: string, memory: string): Api.Storage -> Api.Storage
  {
    (s: Api.Storage) => s.(deployment := Some(Api.StorageDeployment(true, cpu, memory)))
  }

  /** A series of `addStorage` calls, in order. */
  function AddAll(storages: seq<Api.Storage>, inputs: seq<Api.AddStorageInput>): (r: seq<Api.Storage>)
    ensures |r| == |storages| + |inputs|
    ensures r[..|storages|] == storages
    decreases |inputs|
  {
    if inputs == [] then storages
    else
      var before := AddAll(storages, inputs[..|inputs| - 1]);
      assert (before + [NewStorage(before, inputs[|inputs| - 1])])[..|storages|] == before[..|storages|];
      before + [NewStorage(before, inputs[|inputs| - 1])]
  }

  class StorageApi {
    var storages: seq<Api.Storage>

    constructor()
      ensures storages == InitialStorages
    {
      storages := InitialStorages;
    }

    /** `getStorage`: the first storage with the id, or 'Storage not
        found'. */
    method GetStorage(id: string) returns (r: Result<Api.Storage>)
      ensures r.Err? <==> forall j :: 0 <= j < |storages| ==> storages[j].id != id
      ensures r.Err? ==> r.error == StorageNotFound
      ensures r.Ok? ==> (r.value.id == id
        && exists i :: 0 <= i < |storages| && storages[i] == r.value && forall j :: 0 <= j < i ==> storages[j].id != id)
    {
      r := Find(storages, id, StorageId, StorageNotFound);
    }

    /** `addStorage`: pushes a storage with the next id, the input's type
        and name and status NOT_DEPLOYED, and returns it. */
    method AddStorage(input: Api.AddStorageInput) returns (s: Api.Storage)
      modifies this
      ensures s == Api.Storage(NextId(|old(storages)|), input.name, input.typ, Api.StorageStatusNotDeployed, None)
      ensures storages == old(storages) + [s]
    {
      s := NewStorage(storages, input);
      storages := storages + [s];
    }

    /** `addDeployment`: the first storage with the id gets an enabled
        deployment with the input's cpu and memory and is returned, or
        'Storage not found' and nothing changes. */
    method AddDeployment(input: DeploymentInput) returns (r: Result<Api.Storage>)
      modifies this
      ensures match Update(old(storages), input.id, StorageId, Deploy(input.cpu, input.memory))
        case None => r == Err(StorageNotFound) && storages == old(storages)
        case Some((ss, s)) => r == Ok(s) && storages == ss
    {
      match Update(storages, input.id, StorageId, Deploy(input.cpu, input.memory))
      case None =>
        r := Err(StorageNotFound);
      case Some((ss, s)) =>
        storages := ss;
        r := Ok(s);
    }

    /** `deleteStorage`: splices out and returns the first storage with the
        id, or 'Storage not found' and nothing changes. */
    method DeleteStorage(id: string) returns (r: Result<Api.Storage>)
      modifies this
      ensures var (rest, gone) := Splice(old(storages), id, StorageId);
        storages == rest && r == (if gone.None? then Err(StorageNotFound) else Ok(gone.value))
    {
      var (rest, gone) := Splice(storages, id, StorageId);
      storages := rest;
      r := if gone.None? then Err(StorageNotFound) else Ok(gone.value);
    }
  }

  /** The first storage added to the initial array gets the id '4'. */
  lemma FirstAddIsFour(input: Api.AddStorageInput)
    ensures NewStorage(InitialStorages, input).id == "4"
  {
    assert NextId(3) == "4";
  }

  /** As written, the seventh storage added to the initial array gets the
      id '10', which the first initial storage has, although nothing was
      deleted. */
  lemma SeventhAddRepeatsId(inputs: seq<Api.AddStorageInput>)
    requires |inputs| == 7
    ensures var ss := AddAll(InitialStorages, inputs);
      ss[9].id == "10" && ss[0].id == "10" && !DistinctIds(ss, StorageId)
  {
    var ss := AddAll(InitialStorages, inputs);
    var before := AddAll(InitialStorages, inputs[..6]);
    assert ss == before + [NewStorage(before, inputs[6])];
    assert ss[9] == NewStorage(before, inputs[6]);
    assert NextId(9) == "10";
    assert ss[0] == ss[..3][0] == InitialStorages[0];
  }

  /** The record `addStorage` evidently means to push: one whose id no
      other storage has. */
  function NewStorageIntended(storages: seq<Api.Storage>, input: Api.AddStorageInput): Api.Storage
  {
    Api.Storage(FreshId(IdsOf(storages, StorageId)), input.name, input.typ, Api.StorageStatusNotDeployed, None)
  }

  lemma AddStorageIntendedKeepsIdsDistinct(storages: seq<Api.Storage>, input: Api.AddStorageInput)
    requires DistinctIds(storages, StorageId)
    ensures var s := NewStorageIntended(storages, input);
      DistinctIds(storages + [s], StorageId) && Find(storages + [s], s.id, StorageId, StorageNotFound) == Ok(s)
  {
    var s := NewStorageIntended(storages, input);
    var ids := IdsOf(storages, StorageId);
    PushFreshKeepsIdsDistinct(storages, s, StorageId);
    forall j | 0 <= j < |storages| ensures storages[j].id != s.id {
      assert ids[j] == storages[j].id;
    }
    FindPushed(storages, s, StorageId, StorageNotFound);
  }
}

/** The repository resolver of the mock server: the `repositories` array
    and `RepositoryApi`. */
module MockRepository {
  import opened Wrappers
  import opened Strings
  import opened MockArrays
  import Api = GqlModel

  /** A repository record as the mock stores it: `name`, `owner` and `type`
      are copied from the input, which may leave them out. */
  datatype Repository = Repository(
    id: string, name: Option<string>, owner: Option<string>, typ: Option<string>,
    displayName: string, url: string)

  function RepositoryId(r: Repository): string { r.id }

  /** A template literal's rendering of an input field: a missing field is
      rendered as "undefined". */
  function Interpolate(v: Option<string>): string
  {
    if v.Some? then v.value else "undefined"
  }

  function Fixture(id: string, name: string, typ: string, url: string): Repository
  {
    Repository(id, Some(name), Some("facebook"), Some(typ), "facebook/" + name, url)
  }

  const Frontend := Fixture("1", "frontend", Api.RepositoryTypeGithub, "github.com/facebook/frontend")

  /** The array the module starts with. */
  const InitialRepositories: seq<Repository> := [
    Frontend,
    Fixture("2", "console-ui", Api.RepositoryTypeGithub, "github.com/facebook/console-ui"),
    Fixture("3", "mock", Api.RepositoryTypeGithub, "github.com/facebook/mock"),
    Fixture("4", "console-api", Api.RepositoryTypeGithub, "github.com/facebook/console-api"),
    Fixture("5", "console-server", Api.RepositoryTypeGitlab, "gitlab.com/facebook/console-server"),
    Fixture("6", "mock", Api.RepositoryTypeBitbucket, "bitbucket.com/facebook/mock")
  ]

  /** `${input.type}.com/${input.owner}/${input.name}`. */
  function RepositoryUrl(input: Api.AddRepositoryInput): string
  {
    Interpolate(input.typ) + ".com/" + Interpolate(input.owner) + "/" + Interpolate(input.name)
  }

  /** The record `addRepository` pushes onto `repositories`. */
  function NewRepository(repositories: seq<Repository>, input: Api.AddRepositoryInput): Repository
  {
    Repository(NextId(|repositories|), input.name, input.owner, input.typ,
               Interpolate(input.owner) + "/" + Interpolate(input.name), RepositoryUrl(input))
  }

  class RepositoryApi {
    var repositories: seq<Repository>

    constructor()
      ensures repositories == InitialRepositories
    {
      repositories := InitialRepositories;
    }

    /** `addRepository`: pushes the new repository and returns it; the
        array grows by one and keeps its elements. */
    method AddRepository(input: Api.AddRepositoryInput) returns (r: Repository)
      modifies this
      ensures r == Repository(NextId(|old(repositories)|), input.name, input.owner, input.typ,
                              Interpolate(input.owner) + "/" + Interpolate(input.name), RepositoryUrl(input))
      ensures repositories == old(repositories) + [r]
    {
      r := NewRepository(repositories, input);
      repositories := repositories + [r];
    }

    /** `deleteRepository`: splices out and returns the first repository
        with the id; with no such repository it returns `undefined` and
        throws nothing. */
    method DeleteRepository(id: string) returns (r: Option<Repository>)
      modifies this
      ensures (repositories, r) == Splice(old(repositories), id, RepositoryId)
    {
      var (rest, gone) := Splice(repositories, id, RepositoryId);
      repositories := rest;
      r := gone;
    }
  }

  lemma SplitThree(a: string, b: string, c: string, sep: char)
    requires sep !in a && sep !in b && sep !in c
    ensures Split(a + [sep] + b + [sep] + c, sep) == [a, b, c]
  {
    var parts := [a, b, c];
    var bc := Join([b, c], [sep]);
    JoinCons(b, [c], [sep]);
    assert [b] + [c] == [b, c];
    assert bc == b + [sep] + c;
    JoinCons(a, [b, c], [sep]);
    assert [a] + [b, c] == parts;
    assert Join(parts, [sep]) == a + [sep] + bc;
    assert a + [sep] + bc == a + [sep] + b + [sep] + c;
    assert forall k :: 0 <= k < |parts| ==> sep !in parts[k];
    SplitJoin(parts, sep);
  }

  lemma SplitTwo(a: string, b: string, sep: char)
    requires sep !in a && sep !in b
    ensures Split(a + [sep] + b, sep) == [a, b]
  {
    var parts := [a, b];
    JoinCons(a, [b], [sep]);
    assert [a] + [b] == parts;
    assert forall k :: 0 <= k < |parts| ==> sep !in parts[k];
    SplitJoin(parts, sep);
  }

  /** The display name and the url hold the input's owner and name: split
      at '/', the display name gives back owner and name and the url gives
      back `<type>.com`, owner and name, when none of them contains '/'. */
  lemma RepositoryFieldsSplit(repositories: seq<Repository>, input: Api.AddRepositoryInput)
    requires input.typ.Some? && input.owner.Some? && input.name.Some?
    requires '/' !in input.typ.value && '/' !in input.owner.value && '/' !in input.name.value
    ensures var r := NewRepository(repositories, input);
      Split(r.displayName, '/') == [input.owner.value, input.name.value]
      && Split(r.url, '/') == [input.typ.value + ".com", input.owner.value, input.name.value]
  {
    var t, o, n := input.typ.value, input.owner.value, input.name.value;
    var host := t + ".com";
    assert '/' !in ".com";
    assert '/' !in host;
    var url := RepositoryUrl(input);
    assert ".com/" == ".com" + ['/'];
    assert url == host + ['/'] + o + ['/'] + n;
    SplitThree(host, o, n, '/');
    assert "/" == ['/'];
    SplitTwo(o, n, '/');
  }

  /** `${input.type}.com/...` as evidently intended: the host in lower
      case, as in the initial array. */
  function RepositoryUrlIntended(input: Api.AddRepositoryInput): string
  {
    ToLower(Interpolate(input.typ)) + ".com/" + Interpolate(input.owner) + "/" + Interpolate(input.name)
  }

  /** As written, a GitHub repository's url starts with the enum value
      "GITHUB", so it is never the lower-case url the initial GitHub
      repositories have. */
  lemma GithubUrlIsUpperCase(repositories: seq<Repository>, owner: string, name: string)
    ensures var input := Api.AddRepositoryInput(None, None, Some(Api.RepositoryTypeGithub), Some(owner), Some(name), None);
      var r := NewRepository(repositories, input);
      r.url == "GITHUB.com/" + owner + "/" + name && r.url != RepositoryUrlIntended(input)
  {
    var input := Api.AddRepositoryInput(None, None, Some(Api.RepositoryTypeGithub), Some(owner), Some(name), None);
    var lower := ToLower(Api.RepositoryTypeGithub);
    assert RepositoryUrl(input)[0] == 'G';
    assert RepositoryUrlIntended(input)[0] == lower[0] == 'g';
  }

  lemma LowerOf(s: string, t: string)
    requires |s| == |t| && forall k :: 0 <= k < |s| ==> ToLowerChar(s[k]) == t[k]
    ensures ToLower(s) == t
  {
  }

  /** The first initial repository's url is the intended url of its own
      type, owner and name, and not the url `addRepository` builds from
      them. */
  lemma InitialUrlIsIntended()
    ensures var r := Frontend;
      var input := Api.AddRepositoryInput(None, None, r.typ, r.owner, r.name, None);
      r.url == RepositoryUrlIntended(input) && r.url != RepositoryUrl(input)
  {
    LowerOf(Api.RepositoryTypeGithub, "github");
    var r := Frontend;
    var input := Api.AddRepositoryInput(None, None, r.typ, r.owner, r.name, None);
    assert r.url == "github" + ".com/" + "facebook" + "/" + "frontend";
    assert RepositoryUrl(input)[0] == 'G';
  }

  /** The intended url of a new GitHub repository has the "github.com/"
      host of the initial ones. */
  lemma GithubUrlIntended(owner: string, name: string)
    ensures RepositoryUrlIntended(Api.AddRepositoryInput(None, None, Some(Api.RepositoryTypeGithub), Some(owner), Some(name), None))
      == "github.com/" + owner + "/" + name
  {
    LowerOf(Api.RepositoryTypeGithub, "github");
  }
}

/** The pipeline resolver of the mock server: the `pipelines` and
    `pipelineExecutions` arrays and `PipelineApi`. */
module MockPipeline {
  import opened Wrappers
  import opened MockArrays
  import Api = GqlModel

  const PipelineNotFound := Message("Pipeline not found")

  /** Reading a field of a missing `input.repositoryEmbeddings`. */
  const MissingRepositoryEmbeddings := Panic("TypeError: cannot read properties of input.repositoryEmbeddings")

  function PipelineId(p: Api.Pipeline): string { p.id }

  function ExecutionId(e: Api.PipelineExecution): string { e.id }

  function Fixture(n: string, enabled: bool, status: string): Api.Pipeline
  {
    Api.Pipeline(n, "pipeline-" + n, Api.PipelineTypeRepositoryEmbeddings, enabled, status,
                 Some(Api.RepositoryEmbeddings(n, n, n)))
  }

  const InitialPipelines: seq<Api.Pipeline> := [
    Fixture("1", true, Api.PipelineStatusReady),
    Fixture("2", false, Api.PipelineStatusReady),
    Fixture("3", true, Api.PipelineStatusReady),
    Fixture("4", false, Api.PipelineStatusError)
  ]

  const InitialExecutions: seq<Api.PipelineExecution> := [
    Api.PipelineExecution("1", Api.PipelineExecutionStatusSucceeded)
  ]

  /** The record `addPipeline` pushes, or the error of reading the
      reference ids when the input has no `repositoryEmbeddings`. */
  function NewPipeline(pipelines: seq<Api.Pipeline>, input: Api.AddPipelineInput): Result<Api.Pipeline>
  {
    match input.repositoryEmbeddings
    case None => Err(MissingRepositoryEmbeddings)
    case Some(e) =>
      Ok(Api.Pipeline(NextId(|pipelines|), input.name, input.typ, false, Api.PipelineStatusReady,
                      Some(Api.RepositoryEmbeddings(e.repositoryId, e.modelId, e.storageId))))
  }

  /** What `addDeployment` assigns to the pipeline it found. */
  function Deploy(p: Api.Pipeline): Api.Pipeline
  {
    p.(enabled := true, status := Api.PipelineStatusReady)
  }

  /** The id of every element is `String(position + 1)`. */
  ghost predicate NumberedInOrder<T>(xs: seq<T>, idOf: T -> string)
  {
    forall k :: 0 <= k < |xs| ==> idOf(xs[k]) == NextId(k)
  }

  /** Ids given by position are distinct. */
  lemma NumberedIdsAreDistinct<T>(xs: seq<T>, idOf: T -> string)
    requires NumberedInOrder(xs, idOf)
    ensures DistinctIds(xs, idOf)
  {
    forall i, j | 0 <= i < j < |xs| ensures idOf(xs[i]) != idOf(xs[j]) {
      NextIdInjective(i, j);
    }
  }

  class PipelineApi {
    var pipelines: seq<Api.Pipeline>
    var executions: seq<Api.PipelineExecution>

    /** Nothing deletes a pipeline or an execution, so every id is its
        position plus one. */
    ghost predicate Valid()
      reads this
    {
      NumberedInOrder(pipelines, PipelineId) && NumberedInOrder(executions, ExecutionId)
    }

    constructor()
      ensures Valid()
      ensures pipelines == InitialPipelines && executions == InitialExecutions
    {
      pipelines := InitialPipelines;
      executions := InitialExecutions;
      assert NextId(0) == "1" && NextId(1) == "2" && NextId(2) == "3" && NextId(3) == "4";
    }

    /** `getPipeline`: the first pipeline with the id, or 'Pipeline not
        found'. */
    method GetPipeline(id: string) returns (r: Result<Api.Pipeline>)
      ensures r.Err? <==> forall j :: 0 <= j < |pipelines| ==> pipelines[j].id != id
      ensures r.Err? ==> r.error == PipelineNotFound
      ensures r.Ok? ==> (r.value.id == id
        && exists i :: 0 <= i < |pipelines| && pipelines[i] == r.value && forall j :: 0 <= j < i ==> pipelines[j].id != id)
    {
      r := Find(pipelines, id, PipelineId, PipelineNotFound);
    }

    /** `getPipelineExecutions`: every execution, whatever the id. */
    method GetPipelineExecutions(id: string) returns (es: seq<Api.PipelineExecution>)
      ensures es == executions
    {
      es := executions;
    }

    /** `addPipeline`: pushes a pipeline with the next id, the input's name,
        type and reference ids, disabled and READY, and returns it. */
    method AddPipeline(input: Api.AddPipelineInput) returns (r: Result<Api.Pipeline>)
      requires Valid()
      modifies this
      ensures Valid()
      ensures r == NewPipeline(old(pipelines), input)
      ensures pipelines == (if r.Ok? then old(pipelines) + [r.value] else old(pipelines))
      ensures executions == old(executions)
    {
      r := NewPipeline(pipelines, input);
      if r.Ok? {
        pipelines := pipelines + [r.value];
      }
    }

    /** `addDeployment`: the first pipeline with the id is enabled and set
        READY and returned, or 'Pipeline not found' and nothing changes. */
    method AddDeployment(id: string) returns (r: Result<Api.Pipeline>)
      requires Valid()
      modifies this
      ensures Valid()
      ensures match Update(old(pipelines), id, PipelineId, Deploy)
        case None => r == Err(PipelineNotFound) && pipelines == old(pipelines)
        case Some((ps, p)) => r == Ok(p) && pipelines == ps
      ensures executions == old(executions)
    {
      match Update(pipelines, id, PipelineId, Deploy)
      case None =>
        r := Err(PipelineNotFound);
      case Some((ps, p)) =>
        pipelines := ps;
        r := Ok(p);
    }

    /** `trigger`: for a known pipeline, pushes a PENDING execution with the
        next id and returns it; an unknown id is 'Pipeline not found'. */
    method Trigger(id: string) returns (r: Result<Api.PipelineExecution>)
      requires Valid()
      modifies this
      ensures Valid()
      ensures pipelines == old(pipelines)
      ensures r.Err? <==> forall j :: 0 <= j < |pipelines| ==> pipelines[j].id != id
      ensures r.Err? ==> r.error == PipelineNotFound && executions == old(executions)
      ensures r.Ok? ==> r.value == Api.PipelineExecution(NextId(|old(executions)|), Api.PipelineExecutionStatusPending)
                        && executions == old(executions) + [r.value]
    {
      var pipeline := Find(pipelines, id, PipelineId, PipelineNotFound);
      if pipeline.Err? {
        return Err(PipelineNotFound);
      }
      var execution := Api.PipelineExecution(NextId(|executions|), Api.PipelineExecutionStatusPending);
      executions := executions + [execution];
      r := Ok(execution);
    }
  }

  /** In this mock ids never collide: adding a pipeline or triggering one
      keeps every id distinct. */
  lemma PipelineIdsStayDistinct(pipelines: seq<Api.Pipeline>, executions: seq<Api.PipelineExecution>,
                                input: Api.AddPipelineInput)
    requires NumberedInOrder(pipelines, PipelineId) && NumberedInOrder(executions, ExecutionId)
    ensures NewPipeline(pipelines, input).Ok? ==> DistinctIds(pipelines + [NewPipeline(pipelines, input).value], PipelineId)
    ensures DistinctIds(executions + [Api.PipelineExecution(NextId(|executions|), Api.PipelineExecutionStatusPending)], ExecutionId)
  {
    var e := Api.PipelineExecution(NextId(|executions|), Api.PipelineExecutionStatusPending);
    var es := executions + [e];
    forall k | 0 <= k < |es| ensures es[k].id == NextId(k) {
      if k < |executions| {
        assert es[k] == executions[k];
      }
    }
    NumberedIdsAreDistinct(es, ExecutionId);
    if NewPipeline(pipelines, input).Ok? {
      var ps := pipelines + [NewPipeline(pipelines, input).value];
      forall k | 0 <= k < |ps| ensures ps[k].id == NextId(k) {
        if k < |pipelines| {
          assert ps[k] == pipelines[k];
        }
      }
      NumberedIdsAreDistinct(ps, PipelineId);
    }
  }
}
