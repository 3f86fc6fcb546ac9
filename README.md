# encoder-run operator, modelled in Dafny

This project models the core of the encoder-run operator. The operator is a Kubernetes operator with a GraphQL gateway, and it turns Git repositories into searchable embeddings. The modelled parts are:

- **GraphQL model and converters** (`GqlModel`, `ModelsConverters`, `PipelineConverters`, `StorageConverters`, `RepositoryConverters`, `RedisConverters`, `Common`). These are the enums of the generated GraphQL model and the conversions between the cloud resources and their GraphQL views, including the repository URL builder and parser.
- **Resolvers**:
  - the repository resolver's add mutation (`RepositoryResolver`);
  - the search resolver's content window, `extractContentWindowIndex` only (`Search`);
  - the search page's state (`SearchPage`).
- **Controllers** (`ModelController`, `StorageController`, `PipelineController`, `PipelineExecutionController`). Each is a class over the cluster objects it reads and writes (`Cluster`, `Kube`, `CloudApi`). A reconcile is a method whose new state is a specification function of the old one.
- **Git storage caches**:
  - the Redis cache (`RedisClient`, `RedisIter`, `RedisReference`, `RedisObject`, `RedisStores`);
  - the Postgres cache (`Database`, `PostgresPaging`, `PostgresReference`, `PostgresObject`, `PostgresStores`, `PostgresStorage`).
  
  Both implement go-git's storer interfaces over a key-value store or a table, with `GitPlumbing` for hashes, references and objects.
- **The repository embedder job** (`Embedder`). This covers argument checks, chunk keys and documents, batching, the stored hash list and the incremental plan.
- **The model deployer's chunker** (`Chunker`). This covers line splitting by token budget, chunk assembly and the deployer's arguments.
- **The mock GraphQL server's resolvers** (`MockArrays`, `MockModel`, `MockStorage`, `MockRepository`, `MockPipeline`).

## How the model is built

- **Errors.** Go errors are `Outcome` and `Result` values. Go panics (nil dereference, an out-of-range slice) are modelled as an error result `Panic`, not as preconditions.
- **Stateful entities** are classes whose fields are plain values. Examples are a Redis or Postgres store, the cluster's collections, and the mock arrays. Each method's `ensures` ties its result and the new state to a specification function of the old state. The lemmas then state the properties of those functions.
- **Clocks, randomness, the tokenizer and the embedding model** are function parameters. Password generation, for example, takes `rand: nat -> nat`. The network and the Kubernetes API server are values held by the classes.
- **Where the code and its surrounding description disagree, the model follows the code:**
  - Bitbucket URLs are built with `bitbucket.org` but parsed only with `bitbucket.com` (`RepositoryConverters.BitbucketUrlDoesNotParse`).
  - Disabling a storage keeps its volume claim and secret, so enabling it again fails on the claim (`StorageController.RedeployFindsOldClaim`).
  - The embedder stores chunk fields in snake case, but the search converter reads them in camel case (`Embedder.StoredChunkDoesNotConvert`). Which side is intended is unclear, so this is not a finding.
  - The model controller hands each step a copy of the model, so a second status write in one reconcile carries a stale version and conflicts (`ModelController.StaleStatusWriteConflicts`).
- **Additions the code needs:**
  - The pipeline execution controller uses a `RUNNING` state that the pipeline types do not define. The model defines it.
  - The storage controller reads a Postgres section that the storage types do not declare. The model adds it as an optional field.
- **Object sizes.** go-git's in-memory object sets its size to the length of what is written. Objects read back from either cache therefore have the length of their content as their size.

## Model

| member | source | states |
|---|---|---|
| Strings.CountChar | pkg/graph/resolvers/search/search.go:312-318 | the count of a character is zero exactly when the character does not occur |
| Strings.CountCharAppend | pkg/graph/resolvers/search/search.go:312-318 | counting over two texts one after the other adds the counts |
| Strings.IndexOf | frontend/console-ui/src/pages/search/index.tsx:9 | the first position of a character, or -1 exactly when it does not occur |
| Strings.LastIndexOf | pkg/cache/redis/object.go:241 | `strings.LastIndex`: the last position of a character, or -1 exactly when it does not occur |
| Strings.SplitNoSeparator | frontend/console-ui/src/pages/search/index.tsx:9 | no piece of `split(sep)` contains the separator (also line 95) |
| Strings.SplitJoin | frontend/console-ui/src/pages/search/index.tsx:95 | splitting a join of separator-free pieces gives the pieces back |
| Strings.JoinSplit | frontend/console-ui/src/pages/search/index.tsx:95 | joining the pieces of a split gives the text back |
| Strings.SplitAtFirst | frontend/console-ui/src/pages/search/index.tsx:9 | a text whose first separator follows `head` splits into `head` and the pieces of the rest |
| Strings.SplitLast | frontend/console-ui/src/pages/search/index.tsx:9 | `split(sep).pop()` is the text after the last separator |
| Strings.ToLower | pkg/cache/redis/object.go:241 | lower-casing keeps the length and lower-cases each character |
| Strings.NatToDecimal | pkg/graph/converters/storage.go:103 | the decimal digits of a number have no leading zero |
| Strings.DigitsValueOfNat | pkg/graph/converters/storage.go:103 | the decimal digits of a number denote that number |
| Strings.Atoi | pkg/graph/converters/redis.go:27 | `strconv.Atoi` only succeeds with a 64-bit value |
| Strings.AtoiOfDecimal | pkg/graph/converters/redis.go:27 | `strconv.Atoi` of a 64-bit number written with `%d` gives the number back |
| GitPlumbing.NewHash | pkg/cache/redis/object.go:241 | 40 hexadecimal digits of either case name the hash they spell, lower-cased; a text that is already a hash is kept |
| GitPlumbing.NewHashOfString | pkg/cache/postgres/reference.go:26-49 | a hash written with `String()` reads back as itself |
| GitPlumbing.ParseObjectType | pkg/cache/postgres/object.go:76 | a parsed type is one of the six storable types and has the name parsed |
| GitPlumbing.ParseTypeName | pkg/cache/postgres/object.go:38-76 | the name of a storable type parses back to the type |
| GitPlumbing.ParseUnstorableName | pkg/cache/postgres/object.go:76 | the names of the types that cannot be stored do not parse |
| GitPlumbing.TypeNameInjective | pkg/cache/postgres/object.go:38 | different types have different names |
| GitPlumbing.UnmarshalFields | pkg/cache/redis/reference.go:248 | decoding into a field map succeeds exactly on a stored field map |
| GitPlumbing.UnmarshalConfig | pkg/cache/redis/config.go:40 | decoding a config succeeds exactly on a stored config document, and gives that config |
| GitPlumbing.UnmarshalIndex | pkg/cache/redis/index.go:41 | decoding an index succeeds exactly on a stored index document, and gives that index |
| GitPlumbing.NoDataDoesNotDecode | pkg/cache/postgres/config.go:51 | the empty data of a failed read decodes as neither a config, an index nor a field map |
| GqlModel.All | pkg/graph/model/models_gen.go:163-176 | each `All*` list holds exactly the values `IsValid` accepts, each once (shown for ModelStatus; the same for all eight enum types) |
| GqlModel.UnmarshalGQL | pkg/graph/model/models_gen.go:182-193 | a non-string input fails with "enums must be strings" and leaves the receiver; a string is stored in the receiver even when invalid, and the call succeeds exactly when the string is a declared value, failing otherwise with "<s> is not a valid <Type>" |
| GqlModel.UnescapeEscape | pkg/graph/model/models_gen.go:195-197 | the body `strconv.Quote` writes for any string, with each of `"` and `\\` behind a backslash, the letter escapes `\a \b \f \n \r \t \v`, `\x` for other control characters, and `\u`/`\U` for other non-printable characters, unescapes to that string |
| GqlModel.EscapePlain | pkg/graph/model/models_gen.go:195-197 | a string of printable characters other than `"` and `\\` is written as itself |
| GqlModel.UnquoteQuote | pkg/graph/model/models_gen.go:195-197 | `strconv.Unquote` of `strconv.Quote(s)` gives `s` for every string |
| GqlModel.MarshalGQL | pkg/graph/model/models_gen.go:195-197 | the output is the enum's value quoted by `strconv.Quote`: it unquotes to the value, and every character of it is printable |
| GqlModel.HexValueOfHex | pkg/graph/model/models_gen.go:195-197 | the fixed-width lower-case hex digits of a number read back as that number |
| GqlModel.UnescapeEscapeChar | pkg/graph/model/models_gen.go:195-197 | the escape of one character, followed by anything, unescapes to that character and leaves the rest |
| GqlModel.EscapeIsPrintable | pkg/graph/model/models_gen.go:195-197 | every character the escaping writes is printable |
| GqlModel.QuoteIsPrintable | pkg/graph/model/models_gen.go:195-197 | every character of a quoted string is printable |
| GqlModel.ControlCharactersAreEscaped | pkg/graph/model/models_gen.go:195-197 | the bell, vertical tab and DEL characters are written as `\a`, `\v` and `\x7f` |
| GqlModel.EnumRoundTrip | pkg/graph/model/models_gen.go:178-197 | a declared value is written as itself between quotes, and `UnmarshalGQL` of the unquoted text gives the same value with no error |
| GqlModel.ValidIsUpper | pkg/graph/model/models_gen.go:156-161 | every declared enum value is made of capital letters and underscores |
| Kube.CreatedName | pkg/graph/resolvers/pipelines/pipelines.go:91 | an object created with a name keeps it; one created with only `generateName` is named that prefix followed by the server's suffix |
| Kube.AppendCondition | internal/controller/cloud/model_controller.go:121-127 | the status gets exactly one more condition, of the new state's type and status True, after the unchanged earlier ones |
| ModelsConverters.ModelCrdToModel | pkg/graph/converters/models.go:11-38 | succeeds exactly for a HuggingFace model with its HuggingFace spec, or an External model; an unknown type fails with "unknown model type"; the result has the object's name as id, the same type, status NOT_DEPLOYED and no deployment, and a HuggingFace model shows "organization/name" |
| ModelsConverters.ModelInputToCrd | pkg/graph/converters/models.go:40-62 | succeeds exactly for HUGGINGFACE with its settings or EXTERNAL, otherwise "unsupported model type"; the new resource is named from "model-" in "default" and carries the type and the HuggingFace name and organization |
| ModelsConverters.ModelInputRoundTrip | pkg/graph/converters/models.go:11-62 | an accepted input read back keeps its type, name and organization, shows the object's name as id and is NOT_DEPLOYED |
| PipelineConverters.PipelineInputToCrd | pkg/graph/converters/pipelines.go:12-45 | succeeds exactly for REPOSITORY_EMBEDDINGS with its settings, otherwise "unsupported model type"; the new pipeline is named from "pipeline-" in "default", disabled, and its repository, storage and model references point into "default" |
| PipelineConverters.PipelineStatusOf | pkg/graph/converters/pipelines.go:70-87 | no state reads as NOT_DEPLOYED, the four declared states as themselves, and any other text fails with "unknown pipeline state: <s>" |
| PipelineConverters.PipelineCrdToModel | pkg/graph/converters/pipelines.go:47-91 | an unknown type fails with "unknown pipeline type"; success means a known type, the embeddings spec present and a known state, and gives the id, name, the three reference names, the status and the enabled flag |
| PipelineConverters.PipelineInputRoundTrip | pkg/graph/converters/pipelines.go:12-91 | an accepted input read back keeps its name, type and the three ids, is disabled and NOT_DEPLOYED |
| PipelineConverters.RunningIsRejected | pkg/graph/converters/pipelines.go:72-83 | the RUNNING state the pipeline controller writes is rejected by the converter |
| PipelineConverters.ExecutionStatusOf | pkg/graph/converters/pipelines.go:96-111 | no state reads as PENDING, ACTIVE, SUCCEEDED and FAILED as themselves, anything else fails with "unknown pipeline execution state: <s>" |
| PipelineConverters.PipelineExecutionCrdToModel | pkg/graph/converters/pipelines.go:93-113 | succeeds exactly when the state converts, with the object's name as id and the converted status |
| PipelineConverters.StoredPendingIsRejected | pkg/graph/converters/pipelines.go:97-107 | a stored PENDING state, and the empty state, cannot be read back |
| StorageConverters.StorageStatusOf | pkg/graph/converters/storage.go:35-52 | no state reads as NOT_DEPLOYED, the four declared states as themselves, anything else fails with "unknown storage state: <s>" |
| StorageConverters.StorageCrdToModel | pkg/graph/converters/storage.go:12-58 | an unknown type fails with "unknown storage type"; success means a known type and state, gives the object's name as both id and name, and shows a deployment exactly when the resource has one, with its enabled flag, CPU and memory |
| StorageConverters.StorageInputToCrd | pkg/graph/converters/storage.go:60-92 | an unknown type fails with "unsupported storage type"; a Postgres storage without Postgres settings fails with "postgres spec is required"; otherwise the new storage is named from "storage-" in "default" with the given type and name, and a Postgres one keeps `External` |
| StorageConverters.StorageInputRoundTrip | pkg/graph/converters/storage.go:12-92 | an accepted input read back keeps its type, is NOT_DEPLOYED without a deployment, and shows the object's name rather than the name given |
| StorageConverters.PostgresSecretInputToCrd | pkg/graph/converters/storage.go:94-111 | the Secret has the storage's name and namespace and exactly the seven connection keys, each holding its setting and the port in decimal |
| StorageConverters.SecretPortRoundTrip | pkg/graph/converters/storage.go:103 | the port written in decimal reads back as the same 64-bit number |
| RedisConverters.TextProperty | pkg/graph/converters/redis.go:23-26 | a property read succeeds exactly when the property is present and a string, and then gives that string; otherwise the given error |
| RedisConverters.IntProperty | pkg/graph/converters/redis.go:23-31 | a decimal property succeeds only when the string property parses with `Atoi`, giving that number, and fails with the missing-property error when absent |
| RedisConverters.DocToSearchResult | pkg/graph/converters/redis.go:12-82 | a non-GitHub repository fails with "unsupported repository type"; a success carries the document id, the repository's owner and name, and the six properties all present as strings, the three numbers parsed from them and the score parseable |
| RedisConverters.ChunkDocumentProperties | pkg/graph/converters/redis.go:23-78 | a chunk document holds the six properties the converter reads |
| RedisConverters.DecimalPropertyRoundTrip | pkg/graph/converters/redis.go:27-31 | a 64-bit number written in decimal reads back as itself |
| RedisConverters.ChunkDocumentRoundTrip | pkg/graph/converters/redis.go:12-82 | a document holding a chunk's fields in decimal converts to a search result with exactly those fields |
| RedisConverters.MissingChunkIdFirst | pkg/graph/converters/redis.go:23-26 | the first failing read decides the error: a document without a string chunkID always fails with "failed to convert chunk to int" |
| RepositoryConverters.RepositoryCrdToModel | pkg/graph/converters/repositories.go:12-37 | succeeds exactly for a GitHub repository with its GitHub spec present, giving the id, owner, name, URL and "owner/name" display name; an unknown type fails with "unknown repository type", GitLab and Bitbucket with "unsupported repository type" |
| RepositoryConverters.RepositoryUrl | pkg/graph/converters/repositories.go:68-79 | the clone URL on github.com, gitlab.com or bitbucket.org for the three types, and "" exactly when the type is not one of them |
| RepositoryConverters.HostAt | pkg/graph/converters/repositories.go:41 | the `(github\|gitlab\|bitbucket)\.com/` alternative of the pattern: a found host is one of the three and the text there is it followed by ".com/"; none found means no host matches there |
| RepositoryConverters.RunLength | pkg/graph/converters/repositories.go:41 | the greedy `[^/]+` / `[^/.]+` group: every character of the run is allowed and the run stops at a stopping character or the end |
| RepositoryConverters.RunLengthIs | pkg/graph/converters/repositories.go:41 | a greedy run has exactly one possible length |
| RepositoryConverters.CoreAt | pkg/graph/converters/repositories.go:41 | a match at a position has one of the three hosts and non-empty owner and name groups |
| RepositoryConverters.FirstMatch | pkg/graph/converters/repositories.go:43 | the leftmost match of `FindStringSubmatch` has one of the three hosts and non-empty owner and name |
| RepositoryConverters.SplitRepositoryUrl | pkg/graph/converters/repositories.go:39-66 | a failure is always "invalid repository URL"; a success has a non-empty owner and name |
| RepositoryConverters.CoreAtSound | pkg/graph/converters/repositories.go:41 | a match at a position means the text there is "<host>.com/<owner>/<name>" with no '/' in the owner and no '/' or '.' in the name |
| RepositoryConverters.FirstMatchSound | pkg/graph/converters/repositories.go:43 | the leftmost match is a match at some position at or after the start |
| RepositoryConverters.FirstMatchSkips | pkg/graph/converters/repositories.go:41-43 | no match can start at a character that is not 'g' or 'b', so the search may skip them |
| RepositoryConverters.NoMatchAnywhere | pkg/graph/converters/repositories.go:43-46 | when no position matches, the search finds nothing |
| RepositoryConverters.SplitSound | pkg/graph/converters/repositories.go:39-66 | a parsed URL contains "<host>.com/<owner>/<name>" with the host naming the returned type, the owner without '/' and the name without '/' or '.' |
| RepositoryConverters.HostAtIs | pkg/graph/converters/repositories.go:41 | a host followed by ".com/" is matched by the host alternative |
| RepositoryConverters.CoreAfterIs | pkg/graph/converters/repositories.go:41 | an owner run, a '/', and a name run ending at a stopping character give exactly those groups |
| RepositoryConverters.HostedUrlMatch | pkg/graph/converters/repositories.go:41-73 | the leftmost match in a built GitHub or GitLab URL is its own host, owner and name |
| RepositoryConverters.SplitRepositoryUrlRoundTrip | pkg/graph/converters/repositories.go:39-79 | parsing `RepositoryURL` of a GitHub or GitLab repository gives back its type, owner and name (for an owner without '/' and a name without '/' or '.') |
| RepositoryConverters.NoCoreInBitbucketUrl | pkg/graph/converters/repositories.go:41-75 | no position of "https://bitbucket.org/<owner>/<name>" matches the pattern |
| RepositoryConverters.BitbucketUrlDoesNotParse | pkg/graph/converters/repositories.go:41-75 | the Bitbucket URL that `RepositoryURL` builds (bitbucket.org) is always rejected by `SplitRepositoryURL`, whose pattern asks for bitbucket.com |
| RepositoryResolver.CheckFields | pkg/graph/resolvers/repositories/repositories.go:98-112 | the field form goes on exactly when owner and name are given and nonempty and type, token and branch are given; otherwise the first failing check's message, in source order |
| RepositoryResolver.Named | pkg/graph/resolvers/repositories/repositories.go:122-137 | the stored Repository is named "repo-" plus the server's suffix and keeps the spec |
| RepositoryResolver.StripGitSuffix | pkg/graph/resolvers/repositories/repositories.go:172-176 | a URL of at least four characters loses one trailing ".git" and is otherwise unchanged; a shorter one makes the slice panic |
| RepositoryResolver.GithubFieldsCreateRepositoryAndSecret | pkg/graph/resolvers/repositories/repositories.go:96-156 | a complete GitHub input creates the Repository with the built URL, owner, name and branch and a Secret of the same name holding only the token, and returns the new Repository |
| RepositoryResolver.OnlyGithubCreates | pkg/graph/resolvers/repositories/repositories.go:119-159 | by either form only a GitHub input changes the cluster (also lines 178-200) |
| RepositoryResolver.OtherTypesAreRefused | pkg/graph/resolvers/repositories/repositories.go:114-158 | a valid non-GitHub type gets "unsupported repository type", an invalid one "failed to build repository URL", and nothing is created |
| RepositoryResolver.FailedRepositoryCreatesNoSecret | pkg/graph/resolvers/repositories/repositories.go:137-139 | when the Repository cannot be created no Secret is created either |
| RepositoryResolver.AddFromUrlNeverPanics | pkg/graph/resolvers/repositories/repositories.go:162-176 | a URL that parses is at least four characters long, so the ".git" check never panics |
| RepositoryResolver.GithubUrlCreatesRepository | pkg/graph/resolvers/repositories/repositories.go:162-197 | a GitHub URL creates only a Repository, with the parsed owner and name, the URL without its ".git" and no branch, and returns it |
| RepositoryResolver.BuiltUrlAddsSameRepository | pkg/graph/resolvers/repositories/repositories.go:114 | adding by the URL the field form would build gives the same repository as adding by the fields shows (also lines 167-197) |
| RepositoryResolver.NoGitSuffix | pkg/graph/converters/repositories.go:68-79 | a built URL ending in "/<name>", with a name free of '/' and '.', does not end in ".git" |
| RepositoryResolver.Resolver.Add | pkg/graph/resolvers/repositories/repositories.go:58-72 | the URL form when a URL is given, the field form otherwise, as the specification says |
| RepositoryResolver.Resolver.AddFromFields | pkg/graph/resolvers/repositories/repositories.go:96-160 | the result and new cluster are those of the field form's specification |
| RepositoryResolver.Resolver.AddFromUrl | pkg/graph/resolvers/repositories/repositories.go:162-201 | the result and new cluster are those of the URL form's specification |
| Search.ExtractContentWindowIndex | pkg/graph/resolvers/search/search.go:304-321 | a negative index or a start after the end fails with "Invalid index range"; a start beyond the file passes the check and panics on slicing; it succeeds exactly otherwise, giving `content[start:min(end, len)]` and 1 plus the number of line breaks before the start |
| Search.StartLineAdvances | pkg/graph/resolvers/search/search.go:312-318 | the line count of a later start is that of an earlier start plus the line breaks between them |
| SearchPage.Extension | frontend/console-ui/src/pages/search/index.tsx:9 | `path.split('.').pop()` is a suffix of the path without '.', preceded by a '.' unless it is the whole path, and the whole path when the path has no '.' |
| SearchPage.ExtensionIsLastPiece | frontend/console-ui/src/pages/search/index.tsx:9 | the extension is the last piece of the path split at '.' |
| SearchPage.GetLanguage | frontend/console-ui/src/pages/search/index.tsx:8-20 | javascript, python and java exactly for the extensions js, py and java, plaintext exactly for every other extension |
| SearchPage.ProcessContent | frontend/console-ui/src/pages/search/index.tsx:23-28 | at most one leading character is dropped, and it is dropped (adding one to the start line) exactly when the content starts with a line break; otherwise content and line are unchanged |
| SearchPage.Lines | frontend/console-ui/src/pages/search/index.tsx:95-97 | `content.split('\n')` always has at least one piece |
| SearchPage.JoinPrefix | frontend/console-ui/src/pages/search/index.tsx:95 | joining the first pieces of a split gives a prefix of joining all of them |
| SearchPage.PreviewIsPrefix | frontend/console-ui/src/pages/search/index.tsx:95-97 | the five-line preview is a prefix of the content, and the whole content when no expand button is shown |
| SearchPage.SearchRequest | frontend/console-ui/src/pages/search/index.tsx:40-48 | the query typed, page 1 and limit 5 |
| SearchPage.CodeSearchPage.constructor | frontend/console-ui/src/pages/search/index.tsx:31-33 | a new page shows no hits and nothing expanded |
| SearchPage.CodeSearchPage.ToggleExpand | frontend/console-ui/src/pages/search/index.tsx:36-38 | the toggled hit flips between expanded and collapsed, no other hit is expanded afterwards, and the hits are unchanged |
| SearchPage.CodeSearchPage.SetCodeChunks | frontend/console-ui/src/pages/search/index.tsx:50-54 | the answer replaces the hits and the expanded id is kept |
| SearchPage.CodeSearchPage.Shown | frontend/console-ui/src/pages/search/index.tsx:80-95 | the text shown for a hit is a prefix of its processed content |
| Common.ModelServiceUrl | pkg/common/common.go:10-12 | the URL starts with "http://<model>-predictor-default." and ends with ".<namespace>.svc.cluster.local:80/v1/models/custom-model:predict" |
| Common.RedisServiceUrl | pkg/common/common.go:14-16 | the address ends with ".svc.cluster.local:6379" |
| Common.RedisServiceUrlLayout | pkg/common/common.go:14-16 | the address is the storage name, '.', the namespace, '.', and the service suffix |
| Common.RedisServiceUrlParts | pkg/common/common.go:14-16 | for names without dots, the first two dot-separated pieces of the address are the storage name and the namespace |
| Common.RedisServiceUrlInjective | pkg/common/common.go:14-16 | two storages with dot-free names and namespaces have the same address only if both names and namespaces agree |
| Database.ParseSetting | pkg/database/database.go:55-58 | the key read from a setting never contains '=' |
| Database.ParseSettings | pkg/database/database.go:55-58 | one key and value per piece |
| Database.ParseSettingOf | pkg/database/database.go:55-58 | a `key=value` setting with an '='-free key reads back as that key and value |
| Database.SplitDsn | pkg/database/database.go:55-58 | without spaces in the values, the connection string split at ' ' is exactly the seven settings in the order host, user, password, dbname, port, sslmode, TimeZone |
| Database.ParsePieces | pkg/database/database.go:55-58 | each of the seven settings parses to its key and value |
| Database.DsnRoundTrip | pkg/database/database.go:54-58 | a connection string read back the way libpq reads it gives exactly host, user, password, dbname, port, sslmode and TimeZone with the values given, when no value holds a space |
| Database.FindRow | pkg/database/database.go:60-99 | the position of a row with the primary key, or -1 exactly when no row has it |
| Database.Lookup | pkg/database/database.go:60-99 | a found row is in the table and has the key; nothing is found exactly when no row has the key |
| Database.Upsert | pkg/database/database.go:60-99 | an upsert on the primary key adds at most one row |
| Database.UniqueFind | pkg/database/database.go:60-99 | with unique primary keys, a row is the one found by its own key |
| Database.UpsertSpec | pkg/database/database.go:60-99 | after an upsert the keys are still unique, the key is found with the merged row (or the new one when absent), and every other key is found as before |
| Database.Database.constructor | pkg/database/database.go:46 | a freshly migrated database has six empty tables and is connected |
| Database.ClientCache.constructor | pkg/database/database.go:15-18 | the cache starts empty |
| Database.ClientCache.GetPostgresClient | pkg/database/database.go:20-52 | a cached connection string gives the cached connection and changes nothing; a failed open or a failed extension query returns that error and leaves the cache unchanged; otherwise the new connection is cached and returned; no entry is ever removed or replaced |
| Cluster.IgnoreNotFound | internal/controller/cloud/model_controller.go:54 | a not-found error becomes success; every other outcome is kept |
| Cluster.Get | internal/controller/cloud/model_controller.go:52 | a read returns the stored object exactly when the key is stored, and a not-found error otherwise |
| Cluster.Create | internal/controller/cloud/storage_controller.go:351 | a create fails with AlreadyExists exactly when the key is taken and then changes nothing; otherwise the object is stored at version 1 and no other key changes |
| Cluster.Update | internal/controller/cloud/model_controller.go:114-129 | an update of a missing key is not found, one carrying a stale version conflicts, and both change nothing; otherwise the object is stored at the next version and no other key changes |
| Cluster.Delete | internal/controller/cloud/model_controller.go:156 | an empty name is refused before any request and a missing key is not found, both changing nothing; otherwise the key is gone and no other key changes |
| Cluster.CreateOrUpdate | internal/controller/cloud/storage_controller.go:370-435 | a missing object is created from the mutated initial value; an existing one is mutated and written; either way the key then holds the mutated object and no other key changes |
| Cluster.Collection.Create | internal/controller/cloud/storage_controller.go:351 | the collection steps as a create on its stored objects |
| Cluster.Collection.Update | internal/controller/cloud/model_controller.go:114 | the collection steps as an update on its stored objects |
| Cluster.Collection.Delete | internal/controller/cloud/model_controller.go:156 | the collection steps as a delete on its stored objects |
| Cluster.Collection.CreateOrUpdate | internal/controller/cloud/storage_controller.go:370 | the collection steps as a create-or-update on its stored objects |
| ModelController.Transition | internal/controller/cloud/model_controller.go:118-127 | the status moves to the given state and gains exactly one condition recording the reason |
| ModelController.InferenceServiceFor | internal/controller/cloud/model_controller.go:217-275 | only Hugging Face models get a service (any other type is "unimplemented model type"); a missing deployment or Hugging Face spec is a nil dereference; the service has the model's name, is not ready, and runs the deployer image with the spec's CPU and memory limits |
| ModelController.FlagValue | cmd/modeldeployer/main.py:139-143 | a value read for a flag comes from an argument spelling `flag=value` |
| ModelController.DeployerReadsSpec | internal/controller/cloud/model_controller.go:239-243 | the deployer started in the service reads back the model's repository name, organization and maximum sequence length |
| ModelController.MissingModelIsIgnored | internal/controller/cloud/model_controller.go:51-55 | a model that is not found ends the reconcile without error and without requeue |
| ModelController.FirstReconcileRequeues | internal/controller/cloud/model_controller.go:58-66 | a model without a state is marked NOT_DEPLOYED, without a condition, and the reconcile asks to be requeued without touching the service |
| ModelController.NoDeploymentKeepsService | internal/controller/cloud/model_controller.go:91-144 | without a deployment spec the inference service is neither created nor deleted |
| ModelController.MissingServiceIsCreated | internal/controller/cloud/model_controller.go:97-101 | an enabled deployment without a service creates the service and moves the model to DEPLOYING with one condition (also lines 217-272) |
| ModelController.UnsupportedTypeFails | internal/controller/cloud/model_controller.go:273-275 | a model of another type fails with "unimplemented model type" and nothing is written |
| ModelController.ChangedLimitsAreApplied | internal/controller/cloud/model_controller.go:107-132 | a service whose limits differ gets the spec's limits and the model moves to DEPLOYING; unless the service is ready while the model is not READY, the reconcile then succeeds |
| ModelController.StaleStatusWriteConflicts | internal/controller/cloud/model_controller.go:68-81 | every step works on the model read at the start, so after a limits update a ready service makes the READY status write conflict, leaving DEPLOYING (also lines 129, 208) |
| ModelController.EqualLimitsKeepService | internal/controller/cloud/model_controller.go:107-108 | limits equal to the spec leave the service as it is |
| ModelController.DisabledServiceIsDeleted | internal/controller/cloud/model_controller.go:142-175 | a disabled deployment deletes the service and moves the model to NOT_DEPLOYED with one condition |
| ModelController.CleanupWithoutServiceFails | internal/controller/cloud/model_controller.go:148-158 | a disabled deployment whose service is gone fails: the delete is issued for the empty object the failed read left |
| ModelController.ReadyServiceIsReported | internal/controller/cloud/model_controller.go:179-214 | with nothing to deploy or clean up, a ready service moves the model to READY with one condition unless it is READY already; an unready or missing service changes nothing |
| ModelController.ModelReconciler.Reconcile | internal/controller/cloud/model_controller.go:49-84 | the result and the new models and services are those of the reconcile specification |
| ModelController.ModelReconciler.EnsureInferenceService | internal/controller/cloud/model_controller.go:88-135 | the result and new state are those of `ensureInferenceService`'s specification |
| ModelController.ModelReconciler.CreateInferenceService | internal/controller/cloud/model_controller.go:217-277 | the result and new state are those of `createInferenceService`'s specification |
| ModelController.ModelReconciler.EnsureInferenceCleanup | internal/controller/cloud/model_controller.go:139-176 | the result and new state are those of `ensureInferenceCleanup`'s specification |
| ModelController.ModelReconciler.EnsureStatus | internal/controller/cloud/model_controller.go:179-214 | the result and new state are those of `ensureStatus`'s specification |
| StorageController.Transition | internal/controller/cloud/storage_controller.go:123-132 | the status moves to the given state and gains exactly one condition recording the reason |
| StorageController.WriteStatusSpec | internal/controller/cloud/storage_controller.go:134 | a successful status write stores the object with the new status at the next version; a failed one changes nothing (also lines 197, 232) |
| StorageController.Unshuffled | internal/controller/cloud/storage_controller.go:267-273 | the buffer filled before shuffling has eight characters |
| StorageController.UnshuffledShape | internal/controller/cloud/storage_controller.go:262-273 | the buffer holds a digit, then a special character, and characters of the alphabet throughout |
| StorageController.SwapPermutes | internal/controller/cloud/storage_controller.go:274-276 | exchanging two characters keeps the buffer's characters |
| StorageController.Draw | internal/controller/cloud/storage_controller.go:274 | the position drawn for position i is at most i |
| StorageController.ShufflePermutes | internal/controller/cloud/storage_controller.go:274-276 | the shuffle keeps the buffer's length and its characters |
| StorageController.PasswordShape | internal/controller/cloud/storage_controller.go:260-278 | a password has eight characters of the alphabet, at least one digit and at least one special character, and is a rearrangement of the characters drawn |
| StorageController.ShuffleStep | internal/controller/cloud/storage_controller.go:274-276 | the shuffle from position i is the swap at i followed by the shuffle from i - 1 |
| StorageController.ShuffleInPlace | internal/controller/cloud/storage_controller.go:274-276 | shuffling the buffer in place leaves the shuffle of its old contents |
| StorageController.SwapInPlace | internal/controller/cloud/storage_controller.go:275 | the two cells are exchanged and nothing else changes |
| StorageController.CreatePassword | internal/controller/cloud/storage_controller.go:260-278 | the buffer loop and in-place shuffle return the password the draws determine |
| StorageController.PasswordSecret | internal/controller/cloud/storage_controller.go:290-302 | the secret has the storage's name and exactly the keys password and redis-password, holding the password and "--requirepass " followed by it |
| StorageController.FirstReconcileRequeues | internal/controller/cloud/storage_controller.go:66-75 | a storage without a state is marked NOT_DEPLOYED, without a condition, and the reconcile asks to be requeued |
| StorageController.EnabledRedisIsDeployed | internal/controller/cloud/storage_controller.go:99-109 | an enabled Redis storage without a deployment gets a password secret unless it has one, a volume claim, the deployment and the service, and moves to DEPLOYING with one condition (also lines 321-496) |
| StorageController.CreateRedisDeployment | internal/controller/cloud/storage_controller.go:321-496 | for a Redis storage none of whose objects exist, every object is created with the spec's limits and the status records DEPLOYING |
| StorageController.WriteStatusStores | internal/controller/cloud/storage_controller.go:134 | a status write at the current version succeeds, stores the written object and touches nothing but the storages (also lines 197, 232) |
| StorageController.UnsupportedTypeFails | internal/controller/cloud/storage_controller.go:497-499 | only Redis storages can be deployed; any other type fails with "unsupported storage type" and nothing is written |
| StorageController.RedeployFindsOldClaim | internal/controller/cloud/storage_controller.go:143-202 | the cleanup never removes the volume claim, so redeploying a Redis storage whose deployment was deleted fails with AlreadyExists on every reconcile (also lines 351-353) |
| StorageController.ChangedLimitsAreApplied | internal/controller/cloud/storage_controller.go:114-137 | an existing deployment whose limits differ gets the spec's limits and the storage moves to DEPLOYING |
| StorageController.DisabledDeploymentIsDeleted | internal/controller/cloud/storage_controller.go:143-202 | a disabled deployment spec deletes the deployment and the service and moves the storage to NOT_DEPLOYED with one condition; the claim and the secret stay |
| StorageController.CleanupWithoutDeploymentFails | internal/controller/cloud/storage_controller.go:150-166 | with a disabled spec and no deployment, the delete is issued for the empty object the failed read left, which fails, so NOT_DEPLOYED is not recorded |
| StorageController.ReadyReplicasNeverReported | internal/controller/cloud/storage_controller.go:207-235 | the ready-replica check runs only after the cleanup deleted the deployment, so a successful reconcile leaves a storage with a disabled deployment NOT_DEPLOYED and never READY |
| StorageController.ExternalPostgresIsReady | internal/controller/cloud/storage_controller.go:236-253 | an external Postgres storage without a deployment spec is set READY, with one more condition, on every reconcile |
| StorageController.StorageReconciler.Reconcile | internal/controller/cloud/storage_controller.go:58-93 | the result and the new cluster objects are those of the reconcile specification |
| StorageController.StorageReconciler.WriteStatus | internal/controller/cloud/storage_controller.go:134 | the outcome, the refreshed storage and the cluster are those of a status write (also lines 197, 232) |
| StorageController.StorageReconciler.EnsureDeployment | internal/controller/cloud/storage_controller.go:96-139 | the outcome, refreshed storage and cluster are those of `ensureDeployment`'s specification |
| StorageController.StorageReconciler.EnsurePasswordSecret | internal/controller/cloud/storage_controller.go:280-319 | the secret is created from a new password only when it is missing |
| StorageController.StorageReconciler.CreateDeployment | internal/controller/cloud/storage_controller.go:321-502 | the outcome, refreshed storage and cluster are those of `createDeployment`'s specification |
| StorageController.StorageReconciler.CreateRedisObjects | internal/controller/cloud/storage_controller.go:328-480 | the claim, deployment and service are created as the specification says, stopping at the first failure |
| StorageController.StorageReconciler.EnsureDeploymentCleanup | internal/controller/cloud/storage_controller.go:143-202 | the outcome, refreshed storage and cluster are those of `ensureDeploymentCleanup`'s specification |
| StorageController.StorageReconciler.EnsureStatus | internal/controller/cloud/storage_controller.go:205-257 | the outcome, refreshed storage and cluster are those of `ensureStatus`'s specification |
| PipelineController.IndexPipelineRefName | internal/controller/cloud/pipeline_controller.go:95-102 | an execution is indexed under exactly the name of the pipeline it references; any other object under no name |
| PipelineController.ListedAreExactlyMatching | internal/controller/cloud/pipeline_controller.go:63-102 | the list request returns only stored executions in the pipeline's namespace that reference the pipeline, and every such execution the server enumerates |
| PipelineController.ExecutionStep | internal/controller/cloud/pipeline_controller.go:72-81 | an execution with no state or ACTIVE sets RUNNING, FAILED sets ERROR, any other state leaves the pipeline's state as it was |
| PipelineController.NoDecisiveIsReady | internal/controller/cloud/pipeline_controller.go:70-83 | without an execution that is unstarted, ACTIVE or FAILED the pipeline is READY |
| PipelineController.LastDecisiveWins | internal/controller/cloud/pipeline_controller.go:71-83 | otherwise the last such execution in list order decides, whatever came before |
| PipelineController.StateIsReadyRunningOrError | internal/controller/cloud/pipeline_controller.go:70-83 | the state computed is always READY, RUNNING or ERROR |
| PipelineController.OrderDecides | internal/controller/cloud/pipeline_controller.go:71-83 | the state depends on list order: a failed execution before an active one gives RUNNING, after it gives ERROR |
| PipelineController.MissingPipelineIsIgnored | internal/controller/cloud/pipeline_controller.go:58-61 | a reconcile of a missing pipeline succeeds and changes nothing |
| PipelineController.StatusIsWrittenEveryReconcile | internal/controller/cloud/pipeline_controller.go:55-93 | every reconcile of a stored pipeline writes its status with the state of its listed executions, bumps its version, and changes nothing else |
| PipelineController.PipelineReconciler.Reconcile | internal/controller/cloud/pipeline_controller.go:55-93 | the result and new pipelines and executions are those of the reconcile specification |
| PipelineController.OverallState | internal/controller/cloud/pipeline_controller.go:70-83 | the loop over the listed executions computes the specified state |
| PipelineExecutionController.WithState | internal/controller/cloud/pipelineexecution_controller.go:72-73 | the execution's state is set and its conditions, metadata and spec are kept (also line 163) |
| PipelineExecutionController.JobFor | internal/controller/cloud/pipelineexecution_controller.go:104-134 | the Job exists exactly when the pipeline has a repository-embeddings spec (otherwise a nil dereference); it is named after the execution, labelled with the pipeline, never retried or restarted, and runs the embedder image with the storage, repository and model names as arguments |
| PipelineExecutionController.JobState | internal/controller/cloud/pipelineexecution_controller.go:155-162 | SUCCEEDED when any pod succeeded, else FAILED when any failed, else ACTIVE when any is active, else the empty state |
| PipelineExecutionController.MissingObjectsAreIgnored | internal/controller/cloud/pipelineexecution_controller.go:56-66 | a missing execution ends the reconcile without an error or a change |
| PipelineExecutionController.DisabledPipelineIsPending | internal/controller/cloud/pipelineexecution_controller.go:69-79 | an execution of a disabled pipeline becomes PENDING and no Job is created |
| PipelineExecutionController.FirstRunCreatesJob | internal/controller/cloud/pipelineexecution_controller.go:81-89 | the first reconcile of an execution of an enabled pipeline creates its Job and, the Job having no counters yet, writes the empty state (also lines 98-171) |
| PipelineExecutionController.ExistingJobIsKept | internal/controller/cloud/pipelineexecution_controller.go:99-103 | an existing Job is left as it is and its counters give the execution's state (also lines 145-171) |
| PipelineExecutionController.NoJobNoStatus | internal/controller/cloud/pipelineexecution_controller.go:149-152 | without a Job `ensureStatus` succeeds and changes nothing |
| PipelineExecutionController.PipelineExecutionReconciler.Reconcile | internal/controller/cloud/pipelineexecution_controller.go:53-92 | the result and new cluster objects are those of the reconcile specification |
| PipelineExecutionController.PipelineExecutionReconciler.EnsureJob | internal/controller/cloud/pipelineexecution_controller.go:96-143 | the Job is created unless one of the execution's name exists, as the specification says |
| PipelineExecutionController.PipelineExecutionReconciler.EnsureStatus | internal/controller/cloud/pipelineexecution_controller.go:145-171 | the execution's state is written from its Job's counters when it has a Job |
| RedisClient.Bytes | pkg/cache/redis/config.go:31 | `.Bytes()` succeeds exactly on raw bytes and gives them |
| RedisClient.Filter | pkg/cache/redis/object.go:98 | a SCAN batch returns exactly the walked keys that are stored and match the pattern, in order |
| RedisClient.FilterAppend | pkg/cache/redis/object.go:98 | filtering two stretches of the keyspace gives the two results one after the other |
| RedisClient.Get | pkg/cache/redis/config.go:31 | GET succeeds exactly on a stored string and gives its value; a missing key is `redis.Nil` |
| RedisClient.Set | pkg/cache/redis/config.go:26 | SET succeeds exactly when connected and then makes the key hold the new value, whatever it held, and nothing else changes |
| RedisClient.SAdd | pkg/cache/redis/shallow.go:28 | SADD succeeds exactly when connected, with at least one member and the key missing or a set, and then the set is the old members plus the new ones |
| RedisClient.SMembers | pkg/cache/redis/shallow.go:37 | SMEMBERS succeeds exactly when connected and the key is missing or a set, and gives its members, empty for a missing key |
| RedisClient.SIsMember | pkg/cache/redis/module.go:19 | SISMEMBER succeeds when SMEMBERS would, and says whether the member is in the set |
| RedisClient.StrLen | pkg/cache/redis/object.go:104 | STRLEN is 0 for a missing key and the length of a stored string, and fails offline |
| RedisClient.Scan | pkg/cache/redis/object.go:98 | SCAN succeeds exactly when connected and returns the matching keys of the batch at the cursor, with the next cursor one further or 0 after the last batch |
| RedisClient.FlattenMember | pkg/cache/redis/object.go:98 | a key of a whole scan is in one of its batches |
| RedisClient.FlattenAppend | pkg/cache/redis/object.go:98 | one more batch appends its keys |
| RedisClient.SetKeepsLayoutValid | pkg/cache/redis/config.go:26 | after a SET, SCAN still walks every stored key exactly once |
| RedisClient.SAddIdempotent | pkg/cache/redis/shallow.go:28 | a second SADD of the same members changes nothing |
| RedisClient.SAddKeepsLayoutValid | pkg/cache/redis/shallow.go:28 | after an SADD, SCAN still walks every stored key exactly once |
| RedisClient.LayoutWithValid | pkg/cache/redis/config.go:26 | a new key walked last keeps the walk complete and free of repeats |
| RedisClient.ScannedStep | pkg/cache/redis/object.go:96-112 | the keys returned before a cursor grow by the next batch's matches |
| RedisClient.DistinctCard | pkg/cache/redis/object.go:96-112 | a repeat-free list has as many elements as its set |
| RedisClient.FilterDistinct | pkg/cache/redis/object.go:98 | filtering a repeat-free walk gives a repeat-free list |
| RedisClient.ScanAllIsMatchingKeys | pkg/cache/redis/object.go:227-255 | over a valid layout a whole SCAN returns each matching key exactly once and nothing else |
| RedisClient.Client.constructor | pkg/cache/redis/storage.go:32-47 | the client talks to the given server state |
| RedisClient.Client.Get | pkg/cache/redis/config.go:31 | GET on the server state |
| RedisClient.Client.Set | pkg/cache/redis/config.go:26 | the server state after SET |
| RedisClient.Client.SAdd | pkg/cache/redis/shallow.go:28 | the server state after SADD |
| RedisClient.Client.SIsMember | pkg/cache/redis/module.go:19 | SISMEMBER on the server state |
| RedisClient.Client.SMembers | pkg/cache/redis/shallow.go:37 | the members of the set, listed once each in some order, or the error of SMEMBERS |
| RedisClient.Client.StrLen | pkg/cache/redis/object.go:104 | STRLEN on the server state |
| RedisClient.Client.Scan | pkg/cache/redis/object.go:98 | SCAN on the server state |
| RedisIter.Fetch | pkg/cache/redis/reference.go:166-178 | without more data nothing changes; a failed SCAN empties the buffer and stops; otherwise the buffer becomes the batch's matching keys and more data is expected until the cursor returns to 0 |
| RedisIter.NextProgresses | pkg/cache/redis/reference.go:181-203 | each item `Next` hands out leaves fewer scans or fewer buffered keys |
| RedisIter.FlattenCons | pkg/cache/redis/reference.go:166-178 | the keys of a walk are those of its first batch followed by the rest |
| RedisIter.EmptyBatchEndsIteration | pkg/cache/redis/reference.go:181-203 | a SCAN batch with no matching keys while the cursor is not yet 0 makes `Next` return `io.EOF`, although later batches may hold matching keys |
| RedisIter.ScanErrorEndsSilently | pkg/cache/redis/reference.go:168-224 | a failed SCAN ends the iteration like the end of the data, and `ForEach` returns no error |
| RedisIter.MatchingKeyCanBeMissed | pkg/cache/redis/reference.go:181-224 | there is a store with a matching key that `ForEach` never gives to the callback (behind two empty batches) |
| RedisIter.FetchKeepsRemaining | pkg/cache/redis/reference.go:166-178 | a fetch on an empty buffer keeps what remains to be given |
| RedisIter.ForEachGivesRemaining | pkg/cache/redis/reference.go:205-224 | when no remaining batch is empty and every item reads and is accepted, `ForEach` succeeds and gives the callback the items of exactly the remaining keys, in order |
| RedisIter.NextTakesRemaining | pkg/cache/redis/reference.go:181-203 | a key `Next` finds is the first of those that remain, and the rest remain afterwards |
| RedisIter.NewIteratorGivesEveryMatch | pkg/cache/redis/reference.go:151-224 | a new iterator over a layout with no empty batch after the first gives the item of each matching key exactly once |
| RedisIter.RefillIntended | pkg/cache/redis/reference.go:181-186 | as intended, the refill either changes nothing or moves the iterator closer to its end, and an empty buffer after it means no more data |
| RedisIter.RefillIntendedKeepsRemaining | pkg/cache/redis/reference.go:181-186 | as intended, the refill keeps what remains to be given |
| RedisIter.NextIntendedTakesRemaining | pkg/cache/redis/reference.go:181-203 | as intended, `Next` returns `io.EOF` when no key remains, and otherwise gives the item of the first remaining key and moves the iterator on |
| RedisIter.ForEachIntendedGivesRemaining | pkg/cache/redis/reference.go:181-224 | as intended, when every item reads and is accepted, `ForEach` succeeds and gives the callback the items of exactly the remaining keys, in order, whatever batches are empty |
| RedisIter.NewIteratorIntendedGivesEveryMatch | pkg/cache/redis/reference.go:151-224 | as intended, a new iterator over a valid layout gives the item of each matching key exactly once, empty batches or not |
| RedisIter.IntendedFindsKeyBehindEmptyBatches | pkg/cache/redis/reference.go:181-186 | as intended, the key behind two empty batches is the first item `Next` gives |
| RedisIter.ScanIter.constructor | pkg/cache/redis/reference.go:152-164 | a new iterator starts at cursor 0 and fetches the first batch |
| RedisIter.ScanIter.FetchNextBatch | pkg/cache/redis/reference.go:166-178 | the new iterator state is `Fetch` of the old one |
| RedisIter.ScanIter.Next | pkg/cache/redis/reference.go:181-203 | the item and new state are `NextSpec` of the old state: refill an empty buffer once, take the first key and read it, or `io.EOF` |
| RedisIter.ScanIter.ForEach | pkg/cache/redis/reference.go:205-224 | the result, final state and items given are those of `ForEachSpec`: stop at the end, an error of `Next` or of the callback, with `io.EOF` and `storer.ErrStop` ending without error |
| RedisReference.ReferenceToMap | pkg/cache/redis/reference.go:230-244 | a nil reference is refused; otherwise the map has the name, type and target, and the hash exactly for a hash reference |
| RedisReference.JsonToReference | pkg/cache/redis/reference.go:246-284 | a decoded reference is well formed, of one of the two types, and carries the stored Name and Type fields |
| RedisReference.ReferenceRoundTrip | pkg/cache/redis/reference.go:230-284 | decoding what `referenceToMap` gives reconstructs a hash or a symbolic reference |
| RedisReference.InvalidReferenceDoesNotDecode | pkg/cache/redis/reference.go:230-284 | an invalid reference is written but fails to read back with "unsupported reference type" |
| RedisReference.SetReferenceSpec | pkg/cache/redis/reference.go:25-37 | a nil reference fails and changes nothing; otherwise the encoded reference is SET under the key of its name |
| RedisReference.ReferenceSpec | pkg/cache/redis/reference.go:40-50 | a missing key gives `ErrReferenceNotFound` |
| RedisReference.SetThenReference | pkg/cache/redis/reference.go:25-50 | a written reference reads back, and every other name reads as before |
| RedisReference.CheckAndSetWritesOnlyOnMatch | pkg/cache/redis/reference.go:52-105 | a check-and-set either leaves the store unchanged or writes the new reference, and it writes with an old reference only when the stored hash equals the old hash |
| RedisReference.CheckAndSetWithoutOldSets | pkg/cache/redis/reference.go:67-100 | without an old reference the new one is written like `SetReference` |
| RedisReference.CheckAndSetMissingHasChanged | pkg/cache/redis/reference.go:68-71 | an expected reference that is missing gives `ErrReferenceHasChanged` and changes nothing |
| RedisReference.SymbolicTargetsAreNotCompared | pkg/cache/redis/reference.go:78-80 | only hashes are compared, so a check against a symbolic reference passes whatever target the stored one has |
| RedisReference.CountIsStoredReferences | pkg/cache/redis/reference.go:113-135 | over a valid layout the count is the number of stored references of the namespace |
| RedisReference.ReferenceStorage.constructor | pkg/cache/redis/reference.go:19-22 | the store uses the given client and prefix |
| RedisReference.ReferenceStorage.SetReference | pkg/cache/redis/reference.go:25-37 | the result and new server state are `SetReferenceSpec` of the old state |
| RedisReference.ReferenceStorage.Reference | pkg/cache/redis/reference.go:40-50 | the result is `ReferenceSpec` of the server state |
| RedisReference.ReferenceStorage.CheckAndSetReference | pkg/cache/redis/reference.go:52-105 | the result and new state are `CheckAndSetSpec` of the old state |
| RedisReference.ReferenceStorage.CountLooseRefs | pkg/cache/redis/reference.go:113-135 | the loop's count is `CountLooseRefsSpec` of the server state |
| RedisReference.ReferenceStorage.RemoveReference | pkg/cache/redis/reference.go:138-141 | always panics with "unimplemented" |
| RedisReference.ReferenceStorage.IterReferences | pkg/cache/redis/reference.go:152-164 | a new iterator over the reference pattern with the first batch fetched |
| RedisObject.ObjectKeyMatches | pkg/cache/redis/object.go:48 | the key "<type>:<hash>" of an object matches the scans for its hash, for its type and for all objects (also lines 92, 118, 230) |
| RedisObject.SetEncodedObjectSpec | pkg/cache/redis/object.go:37-54 | the write succeeds exactly when connected, returns the object's hash and stores its bytes under its type and hash; a failed write returns the zero hash and changes nothing |
| RedisObject.DecodeObject | pkg/cache/redis/object.go:79-87 | stored bytes become an object of the requested type whose size is the number of bytes |
| RedisObject.TypedObjectSpec | pkg/cache/redis/object.go:69-87 | a missing key gives `ErrObjectNotFound`; a found object has the requested type and the length of its bytes as size |
| RedisObject.ProbeFindsFirst | pkg/cache/redis/object.go:58-67 | an `AnyObject` lookup succeeds exactly when some type in the probe order has the object, gives the object of the first such type, and otherwise `ErrObjectNotFound` |
| RedisObject.SetThenEncodedObject | pkg/cache/redis/object.go:37-88 | a written object reads back with its type, bytes and their length, and an `AnyObject` lookup finds it when no other type holds an object with the same hash |
| RedisObject.TypeNameKeysDiffer | pkg/cache/redis/object.go:48-70 | different types give different keys for one hash |
| RedisObject.FlattenConcat | pkg/cache/redis/object.go:95-113 | a walk in two parts lists the keys of both, in order |
| RedisObject.ScanAllSplit | pkg/cache/redis/object.go:95-113 | a whole SCAN is what was returned before a cursor followed by the matches of the rest |
| RedisObject.BatchPosition | pkg/cache/redis/object.go:95-113 | where the batch at a cursor sits in a whole SCAN |
| RedisObject.HasEncodedObjectIffStored | pkg/cache/redis/object.go:117-135 | over a valid layout `HasEncodedObject` succeeds exactly when some stored key has the hash |
| RedisObject.SetThenHasEncodedObject | pkg/cache/redis/object.go:37-54 | a written object is found by its hash (also lines 117-135) |
| RedisObject.SizeOfOnlyObject | pkg/cache/redis/object.go:37-54 | when a written object is the only one with its hash, `EncodedObjectSize` is the length of its bytes (also lines 91-115) |
| RedisObject.HashOfObjectKey | pkg/cache/redis/object.go:48 | the text after the last ':' of an object key is its hash (also line 241) |
| RedisObject.FirstFailureMeaning | pkg/cache/redis/object.go:239-245 | the walk passes exactly when `fun` accepts every hash, and a failure is the first rejection |
| RedisObject.FirstFailureAppend | pkg/cache/redis/object.go:233-249 | the walk over two batches stops in the first if it fails there |
| RedisObject.ForEachObjectHashCoversStored | pkg/cache/redis/object.go:227-251 | over a valid layout `ForEachObjectHash` succeeds exactly when `fun` accepts the hash of every stored object key |
| RedisObject.AnyTypeIterationMatchesNoStoredObject | pkg/cache/redis/object.go:147-157 | `IterEncodedObjects(AnyObject)` scans "any:*", which no object written with a storable type matches |
| RedisObject.ObjectStorage.constructor | pkg/cache/redis/storage.go:32-47 | the store uses the given client and prefix |
| RedisObject.ObjectStorage.SetEncodedObject | pkg/cache/redis/object.go:37-54 | the hash, result and new server state are `SetEncodedObjectSpec` of the old state |
| RedisObject.ObjectStorage.EncodedObject | pkg/cache/redis/object.go:57-88 | the result is `EncodedObjectSpec` of the server state |
| RedisObject.ObjectStorage.EncodedObjectSize | pkg/cache/redis/object.go:91-115 | the loop returns the stored length of the first key the scan for the hash returns, `ErrObjectNotFound` when there is none |
| RedisObject.ObjectStorage.HasEncodedObject | pkg/cache/redis/object.go:117-135 | the loop succeeds exactly when the scan for the hash returns a key |
| RedisObject.ObjectStorage.CallEach | pkg/cache/redis/object.go:239-245 | the calls on one batch stop at the first error and return it |
| RedisObject.ObjectStorage.ForEachObjectHash | pkg/cache/redis/object.go:227-251 | the loop's result is `ForEachObjectHashSpec`: `fun` on the hash of each scanned key up to the first error |
| RedisObject.ObjectStorage.IterEncodedObjects | pkg/cache/redis/object.go:147-157 | a new iterator over the type's pattern that decodes objects of that type, with the first batch fetched |
| RedisStores.SetShallowAccumulates | pkg/cache/redis/shallow.go:18-48 | `SetShallow` adds to the stored hashes instead of replacing them, and `Shallow` then gives the old hashes together with the new ones |
| RedisStores.SetShallowIdempotent | pkg/cache/redis/shallow.go:27-28 | storing the same hashes again changes nothing |
| RedisStores.SetShallowErrors | pkg/cache/redis/shallow.go:18-30 | a failure writes nothing; offline is a connection error, no hashes is refused by the server, and a string under the key is a wrong-type error |
| RedisStores.ConfigRoundTrip | pkg/cache/redis/config.go:20-45 | a written config reads back |
| RedisStores.ConfigReadOutcomes | pkg/cache/redis/config.go:30-45 | a missing key reads as a new config; any other read error surfaces as the decoding error, not the read error; a config read back is the one stored |
| RedisStores.IndexRoundTrip | pkg/cache/redis/index.go:20-46 | a written index reads back |
| RedisStores.IndexReadOutcomes | pkg/cache/redis/index.go:32-46 | a missing key reads as an empty index of version 2; any other read error surfaces as the decoding error; an index read back is the one stored |
| RedisStores.SmallStoresKeysDiffer | pkg/cache/redis/config.go:26 | the config, index and shallow keys of one prefix are three different keys |
| RedisStores.ModuleRegisters | pkg/cache/redis/module.go:15-37 | after `Module(name)` the name is in the set of modules and the namespace is "modules:<name>"; a failure changes nothing and is a connection or wrong-type error; it succeeds exactly when the set can be read |
| RedisStores.ModuleIdempotent | pkg/cache/redis/module.go:19-30 | a second `Module(name)` leaves the store as the first left it |
| RedisStores.ModuleNamespaceInjective | pkg/cache/redis/module.go:16 | different module names give different namespaces |
| RedisStores.ShallowStorage.constructor | pkg/cache/redis/storage.go:42 | the store uses the given client and prefix |
| RedisStores.ShallowStorage.SetShallow | pkg/cache/redis/shallow.go:18-30 | the result and new server state are `SetShallowSpec` of the old state |
| RedisStores.ShallowStorage.Shallow | pkg/cache/redis/shallow.go:33-48 | succeeds exactly when the set can be read, and gives one hash per member, together the hashes of the members |
| RedisStores.DistinctSetSize | pkg/cache/redis/shallow.go:42-45 | a repeat-free list has as many elements as its set |
| RedisStores.ConfigStorage.constructor | pkg/cache/redis/storage.go:38 | the store uses the given client and prefix |
| RedisStores.ConfigStorage.SetConfig | pkg/cache/redis/config.go:20-27 | the config document is SET under the config key |
| RedisStores.ConfigStorage.Config | pkg/cache/redis/config.go:30-45 | the result is `ConfigSpec` of the server state |
| RedisStores.IndexStorage.constructor | pkg/cache/redis/storage.go:39 | the store uses the given client and prefix |
| RedisStores.IndexStorage.SetIndex | pkg/cache/redis/index.go:20-29 | the index document is SET under the index key |
| RedisStores.IndexStorage.Index | pkg/cache/redis/index.go:32-46 | the result is `IndexSpec` of the server state |
| RedisStores.Storage.constructor | pkg/cache/redis/storage.go:32-45 | as written, `moduleNS` is kept but every store gets the empty prefix |
| RedisStores.Storage.Namespaced | pkg/cache/redis/storage.go:32-45 | as intended, every store keys its data under `moduleNS` |
| RedisStores.ModulesShareConfig | pkg/cache/redis/storage.go:32-45 | as written, two modules share the empty prefix, so after each writes its config both read the second one's |
| RedisStores.ModuleStoragesShareConfig | pkg/cache/redis/module.go:34 | the storages of two modules use the same config key, so after both write, the first reads the second's config |
| RedisStores.NamespacedModulesKeepConfig | pkg/cache/redis/module.go:16-34 | with the namespace as prefix, each of two modules reads back its own config |
| RedisStores.ModuleStorage.constructor | pkg/cache/redis/storage.go:41 | the store uses the given client |
| RedisStores.ModuleStorage.Module | pkg/cache/redis/module.go:15-37 | the new server state is `ModuleSpec` of the old one; on success a storage built by `NewStorage` as written, recording the module's namespace while every store uses the empty prefix; on failure its error |
| PostgresPaging.Batch | pkg/cache/postgres/object.go:129 | a page is at most 100 rows, the run of rows starting at the offset, and it is short exactly when it reaches the end of the table |
| PostgresPaging.ConvertBatch | pkg/cache/postgres/object.go:138-148 | the buffer has one entry per fetched row; the fetch succeeds exactly when every row converts, and then entry i is row i converted |
| PostgresPaging.ConvertBatchFailsAt | pkg/cache/postgres/reference.go:148-160 | when row i is the first that does not convert, the fetch returns its error, the rows before it are converted and entries i onward stay nil |
| PostgresPaging.Convert | pkg/cache/postgres/reference.go:148-161 | the conversion loop fills the buffer as the conversion function describes |
| PostgresPaging.FetchPage | pkg/cache/postgres/reference.go:137-162 | `fetchNextBatch` on the iterator's fields: a failed query clears moreData, otherwise the offset advances by the page length and moreData says the page was full |
| PostgresPaging.NextProgresses | pkg/cache/postgres/reference.go:165-177 | every item `Next` hands out strictly decreases the rows still reachable plus the buffer length, so iteration ends |
| PostgresPaging.ForEachUnfold | pkg/cache/postgres/reference.go:180-196 | one round of `ForEach`: a `Next` error ends it (EOF as success), a callback error ends it (ErrStop as success), a passing callback continues from the new iterator state |
| PostgresPaging.NextPage | pkg/cache/postgres/reference.go:165-177 | `Next` refills once when the buffer is empty and more data is expected, returns a failed fetch's error, otherwise hands out the first buffered item or EOF |
| PostgresPaging.ForEachPage | pkg/cache/postgres/reference.go:180-196 | the `ForEach` loop returns the outcome, final iterator state and callback items of the recursive specification |
| PostgresPaging.ForEachGivesRemaining | pkg/cache/postgres/reference.go:137-196 | over a reachable table whose rows all convert and an accepting callback, `ForEach` succeeds and hands out exactly what remains: the buffer, then every later row once, in table order |
| PostgresPaging.RemainingAfterTake | pkg/cache/postgres/reference.go:171-174 | taking the first buffered item leaves the rest of what remains |
| PostgresPaging.FetchKeepsRemaining | pkg/cache/postgres/reference.go:144-160 | a successful fetch only moves rows from the table into the buffer: what remains is unchanged |
| PostgresPaging.ConvertBatchAllOk | pkg/cache/postgres/object.go:139-147 | when every row converts, converting a run of rows is converting its first part followed by the rest |
| PostgresPaging.NewIteratorGivesEveryRow | pkg/cache/postgres/reference.go:126-134 | a fresh iterator (offset 0, moreData set) over a reachable table hands every row to the callback once, in table order |
| PostgresPaging.OfflineFetchFails | pkg/cache/postgres/reference.go:139-143 | a lost connection ends an iteration that needs a page with the query's error |
| PostgresPaging.ConversionFailureLeavesNil | pkg/cache/postgres/reference.go:148-177 | after a row fails to convert, `Next` returns that error, and the iterator keeps the page with nil entries from the failing row on, with offset and moreData already advanced |
| PostgresReference.RowToReference | pkg/cache/postgres/reference.go:47-54 | a row of type "hash-reference" or "symbolic-reference" becomes a well-formed reference of that type with the requested name; any other type is an error |
| PostgresReference.RowOfReferenceReadsBack | pkg/cache/postgres/reference.go:22-28 | the row a hash or symbolic reference is written as converts back to the same reference |
| PostgresReference.SetReferenceFailures | pkg/cache/postgres/reference.go:21-35 | a nil reference panics with a nil pointer dereference before any query, and an unreachable database fails; both leave the table unchanged |
| PostgresReference.SetThenReference | pkg/cache/postgres/reference.go:21-55 | storing a reference under a name not yet present succeeds, keeps (url, name) unique, and `Reference` then returns it |
| PostgresReference.SetReferenceKeepsStoredType | pkg/cache/postgres/reference.go:31-34 | over an existing row only the hash column changes, so a hash written over a symbolic reference still reads back as the old symbolic reference |
| PostgresReference.SetReferenceKeepsOthers | pkg/cache/postgres/reference.go:31-34 | an upsert leaves the keys unique and every other name reading as before |
| PostgresReference.CheckAndSetWithoutOldWrites | pkg/cache/postgres/reference.go:222-234 | without an old reference the new one is written whatever is stored, replacing type and target too, and reads back |
| PostgresReference.CheckAndSetErrors | pkg/cache/postgres/reference.go:205-224 | a nil new reference is refused first; with an old reference and no stored row the answer is ErrReferenceNotFound; every failure leaves the table unchanged |
| PostgresReference.CheckAndSetRejectsUnchangedHash | pkg/cache/postgres/reference.go:227-229 | as written, a check-and-set against the unchanged stored hash reference reports ErrReferenceHasChanged, because the current hash is rebuilt from the empty target column |
| PostgresReference.CheckAndSetIntendedMatchesStored | pkg/cache/postgres/reference.go:203-235 | as intended, a check-and-set over a stored reference succeeds exactly when the old hash equals the stored one, and then the new reference reads back; a failure is ErrReferenceHasChanged and leaves the table unchanged |
| PostgresReference.RowsOf | pkg/cache/postgres/reference.go:139 | the iterator's selection holds exactly the rows whose url is the namespace prefix |
| PostgresReference.IteratedHashReferenceLosesHash | pkg/cache/postgres/reference.go:152-153 | as written, the iterator hands out every stored hash reference with the zero hash, since it reads the hash from the target column |
| PostgresReference.IteratedReferenceIntendedReadsBack | pkg/cache/postgres/reference.go:150-159 | as intended, the iterator hands out each stored reference exactly as it was stored |
| PostgresReference.ReferenceStorage.SetReference | pkg/cache/postgres/reference.go:21-35 | a nil reference panics on its dereference and changes nothing; otherwise the references table becomes the upsert on (url, name) that overwrites only the hash; an unreachable database fails and changes nothing; no other table changes |
| PostgresReference.ReferenceStorage.Reference | pkg/cache/postgres/reference.go:38-55 | returns the reference stored under the name in this namespace, ErrReferenceNotFound when there is none, or the query's error |
| PostgresReference.ReferenceStorage.CheckAndSetReference | pkg/cache/postgres/reference.go:204-253 | the outcome and new table are those of check-and-set as written: nil new refused, missing row with an old reference is ErrReferenceNotFound, hash mismatch is ErrReferenceHasChanged, otherwise type, target and hash are upserted |
| PostgresReference.ReferenceStorage.IterReferences | pkg/cache/postgres/reference.go:126-134 | a new iterator over this namespace at offset 0 with nothing buffered and more data expected |
| PostgresReference.ReferenceIter.FetchNextBatch | pkg/cache/postgres/reference.go:137-162 | the iterator's offset, buffer and moreData become those of one page fetch of the namespace's rows |
| PostgresReference.ReferenceIter.Next | pkg/cache/postgres/reference.go:165-177 | the result and new iterator state are those of the paging `Next` specification |
| PostgresReference.ReferenceIter.ForEach | pkg/cache/postgres/reference.go:180-196 | the outcome and final iterator state are those of the paging `ForEach` specification, which hands out every remaining reference in order |
| PostgresObject.RowToObject | pkg/cache/postgres/object.go:75-87 | a row converts exactly when its type name parses, giving an object of that type holding the blob with the blob's length as size; otherwise the type's parse error |
| PostgresObject.CountRows | pkg/cache/postgres/object.go:93-94 | the count is at most the table's size and is zero exactly when no row has the key |
| PostgresObject.SetEncodedObjectOutcomes | pkg/cache/postgres/object.go:24-53 | a write returns the object's hash whether or not it succeeds, and a failed write leaves the table as it was |
| PostgresObject.SetThenEncodedObject | pkg/cache/postgres/object.go:24-88 | after storing an object of a storable type, reading it by its type or by AnyObject gives its bytes and type, any other type finds nothing, and other keys read as before; one row per hash, so a rewrite under another type replaces it |
| PostgresObject.SetThenReadOwnKey | pkg/cache/postgres/object.go:45-66 | the hash just written reads back by its type or by AnyObject and by no other type |
| PostgresObject.SetKeepsOtherKey | pkg/cache/postgres/object.go:45-52 | writing one hash leaves what every other hash reads |
| PostgresObject.SetUnstorableReadsInvalid | pkg/cache/postgres/object.go:38-79 | an object of type AnyObject or of an invalid type is stored under a name the type parser refuses, so it reads back as an invalid-type error |
| PostgresObject.HasEncodedObjectIffStored | pkg/cache/postgres/object.go:91-102 | `HasEncodedObject` succeeds exactly when a row for (hash, prefix) exists, fails otherwise with ErrObjectNotFound, and agrees with `EncodedObject(AnyObject, hash)` on whether the object is missing |
| PostgresObject.SetThenEncodedObjectSize | pkg/cache/postgres/object.go:39 | a stored object's size is the length of its bytes, both as written and as intended (also lines 191-201) |
| PostgresObject.MissingObjectHasSizeZero | pkg/cache/postgres/object.go:193-200 | as written, a missing object has size 0 and no error, while `HasEncodedObject` and `EncodedObject` report it missing |
| PostgresObject.EncodedObjectSizeIntendedAgreesWithHas | pkg/cache/postgres/object.go:191-201 | as intended, the size lookup fails exactly when `HasEncodedObject` does, with the same error, and otherwise gives the stored size |
| PostgresObject.TypedRowsOf | pkg/cache/postgres/object.go:129 | the iterator's selection holds exactly the rows with the namespace's url and the type's name |
| PostgresObject.IterEncodedObjectsGivesEveryRow | pkg/cache/postgres/object.go:115-183 | a new iterator over a reachable database hands out one object per selected row, in table order, each with the requested type and the row's blob |
| PostgresObject.SetThenIterated | pkg/cache/postgres/object.go:24-183 | an object just stored is among those the iterator for its type hands out |
| PostgresObject.StoredRowIterated | pkg/cache/postgres/object.go:129-147 | every row with the namespace's url and the type's name is among those the iterator for that type hands out |
| PostgresObject.AnyObjectIterationIsEmpty | pkg/cache/postgres/object.go:129 | the iterator for AnyObject selects rows typed "any", so over a table of storable objects it hands out nothing |
| PostgresObject.ObjectStorage.NewEncodedObject | pkg/cache/postgres/object.go:19-21 | an empty in-memory object of the invalid type with size 0 |
| PostgresObject.ObjectStorage.SetEncodedObject | pkg/cache/postgres/object.go:24-53 | the objects table becomes the upsert on (hash, url) that overwrites type, blob and size; the hash is returned; no other table changes |
| PostgresObject.ObjectStorage.EncodedObject | pkg/cache/postgres/object.go:56-88 | returns the object stored for the hash (and the type unless AnyObject) in this namespace, ErrObjectNotFound, the parse error or the query's error |
| PostgresObject.ObjectStorage.HasEncodedObject | pkg/cache/postgres/object.go:91-102 | the query's error, ErrObjectNotFound on a zero count, success otherwise |
| PostgresObject.ObjectStorage.EncodedObjectSize | pkg/cache/postgres/object.go:191-201 | as written: the stored size, 0 without error for a missing object, or the query's error |
| PostgresObject.ObjectStorage.IterEncodedObjects | pkg/cache/postgres/object.go:115-124 | a new iterator over this namespace and type at offset 0 with nothing buffered and more data expected |
| PostgresObject.EncodedObjectIter.FetchNextBatch | pkg/cache/postgres/object.go:127-149 | the iterator's offset, buffer and moreData become those of one page fetch of the selected rows |
| PostgresObject.EncodedObjectIter.Next | pkg/cache/postgres/object.go:152-164 | the result and new iterator state are those of the paging `Next` specification |
| PostgresObject.EncodedObjectIter.ForEach | pkg/cache/postgres/object.go:167-183 | the outcome and final state are those of the paging `ForEach` specification, which hands out every remaining object in order |
| PostgresStores.NewHashes | pkg/cache/postgres/shallow.go:49-52 | one hash per stored text, in order, each the hash that text spells |
| PostgresStores.SetShallowReplaces | pkg/cache/postgres/shallow.go:18-55 | `SetShallow` replaces what is stored: `Shallow` then gives exactly the hashes written, in order, and other namespaces read as before |
| PostgresStores.SetShallowLastWins | pkg/cache/postgres/shallow.go:25-31 | of two writes the second wins, whatever the first held |
| PostgresStores.ShallowOutcomes | pkg/cache/postgres/shallow.go:37-45 | no row reads as no hashes; a lost connection is returned as the query's error; a failed write changes nothing |
| PostgresStores.ConfigRoundTrip | pkg/cache/postgres/config.go:20-56 | `SetConfig(c)` then `Config()` gives c, and other namespaces read as before |
| PostgresStores.ConfigReadOutcomes | pkg/cache/postgres/config.go:43-53 | no row reads as a new default config; any other read error is dropped and surfaces as the decoding error of an empty blob |
| PostgresStores.IndexRoundTrip | pkg/cache/postgres/index.go:19-53 | `SetIndex(i)` then `Index()` gives i, and other namespaces read as before |
| PostgresStores.IndexReadOutcomes | pkg/cache/postgres/index.go:40-50 | no row reads as an index of version 2 with no entries; any other read error surfaces as the decoding error of an empty blob |
| PostgresStores.ShallowStorage.SetShallow | pkg/cache/postgres/shallow.go:18-32 | the shallows table becomes the upsert on url of the hashes' texts; no other table changes |
| PostgresStores.ShallowStorage.Shallow | pkg/cache/postgres/shallow.go:35-55 | returns the stored hashes of this namespace, none when there is no row, or the query's error |
| PostgresStores.ConfigStorage.SetConfig | pkg/cache/postgres/config.go:20-38 | the configs table becomes the upsert on url of the config's encoding; no other table changes |
| PostgresStores.ConfigStorage.Config | pkg/cache/postgres/config.go:41-56 | returns the decoded stored config, a new config when there is no row, or a decoding error |
| PostgresStores.IndexStorage.SetIndex | pkg/cache/postgres/index.go:19-35 | the indexes table becomes the upsert on url of the index's encoding; no other table changes |
| PostgresStores.IndexStorage.Index | pkg/cache/postgres/index.go:38-53 | returns the decoded stored index, version 2 with no entries when there is no row, or a decoding error |
| PostgresStorage.Storage.constructor | pkg/cache/postgres/storage.go:49-74 | every store is made over the given database with the namespace as its prefix |
| PostgresStorage.Storage.PackRefs | pkg/cache/postgres/storage.go:39-41 | does nothing and succeeds |
| PostgresStorage.Storage.CountLooseRefs | pkg/cache/postgres/storage.go:29-31 | always panics with "unimplemented" |
| PostgresStorage.Storage.Module | pkg/cache/postgres/storage.go:34-36 | always panics with "unimplemented" |
| PostgresStorage.Storage.RemoveReference | pkg/cache/postgres/storage.go:44-46 | always panics with "unimplemented" |
| PostgresStorage.Storage.AddAlternate | pkg/cache/postgres/storage.go:76-81 | always fails with "not supported" |
| PostgresStorage.NamespacesKeepConfig | pkg/cache/postgres/storage.go:49-74 | since each store keys by its namespace, storages of two namespaces each read back their own config after both write |
| Embedder.CheckArguments | cmd/repositoryembedder/main.go:122-125 | the job goes on exactly when storageId, repositoryId and modelId are all non-empty, and otherwise fails with the argument error |
| Embedder.BaseUrlIsModelServiceUrl | cmd/repositoryembedder/main.go:75 | the embedding client posts to the same model endpoint the resolvers compute with `ModelServiceURL` |
| Embedder.StorageAddressIsRedisServiceUrl | cmd/repositoryembedder/main.go:368 | the job connects to the same Redis address the resolvers compute with `RedisServiceURL` |
| Embedder.TreeListKey | cmd/repositoryembedder/main.go:244 | the key of a tree's hash list is never the key "embedding:tree" that names the last tree (also line 323) |
| Embedder.FileHashesMembers | cmd/repositoryembedder/main.go:268 | a hash is collected exactly when some file of the tree has it |
| Embedder.QueuedMembers | cmd/repositoryembedder/main.go:270-282 | a request is queued exactly when it is the request of a tree file whose hash is not known |
| Embedder.ChunkedSplitsQueue | cmd/repositoryembedder/main.go:284-315 | the batches sent are 10 files each except a last one of 1 to 9, and together they are the whole queue in order |
| Embedder.WellSizedIsChunked | cmd/repositoryembedder/main.go:284-315 | the cut into batches of 10 and a remainder is the only well-sized cut of the queue |
| Embedder.PlanBatches | cmd/repositoryembedder/main.go:253-315 | the tree loop collects every file's hash and cuts the files with unknown hashes, in tree order, into batches of 10 with a shorter last one |
| Embedder.PlanStep | cmd/repositoryembedder/main.go:268-282 | one more file adds its hash to the collected set and is queued exactly when its hash is unknown |
| Embedder.AllKnownQueuesNothing | cmd/repositoryembedder/main.go:270-301 | a tree whose hashes are all known queues nothing |
| Embedder.RerunQueuesNothing | cmd/repositoryembedder/main.go:268-301 | running again with the hashes just collected as known queues nothing |
| Embedder.WordBytes | cmd/repositoryembedder/main.go:444 | one element is written as exactly four bytes |
| Embedder.WordRoundTrip | cmd/repositoryembedder/main.go:444 | the four little-endian bytes of an element read back as that element |
| Embedder.LittleEndian | cmd/repositoryembedder/main.go:442-448 | the stored bytes of an embedding are four per element |
| Embedder.LittleEndianRoundTrip | cmd/repositoryembedder/main.go:442-448 | the stored bytes read back as the embedding, element for element |
| Embedder.EncodeEmbedding | cmd/repositoryembedder/main.go:442-447 | the encoding loop produces the little-endian bytes of the whole embedding |
| Embedder.IntToDecimalInjective | cmd/repositoryembedder/main.go:433 | different chunk numbers print as different decimal texts |
| Embedder.ChunkKeyInjective | cmd/repositoryembedder/main.go:433 | for file hashes without ':', two chunks get the same key "embedding:code:<hash>:<id>" only when they have the same hash and number |
| Embedder.BuildDocs | cmd/repositoryembedder/main.go:429-451 | the document loop yields each chunk's key and document, in order |
| Embedder.PutEach | cmd/repositoryembedder/main.go:453-455 | the documents are put in turn, a later one replacing an earlier one under the same key |
| Embedder.StoreKeepsEach | cmd/repositoryembedder/main.go:453-455 | with distinct keys every entry is stored and every other key keeps its document |
| Embedder.PutDocsStoresEach | cmd/repositoryembedder/main.go:427-460 | when no two chunks share hash and number, every chunk's document is stored under its key and keys of no chunk are untouched |
| Embedder.StoredChunkDoesNotConvert | cmd/repositoryembedder/main.go:435-440 | the job stores its fields as file_hash, chunk_id, start_line, ..., names the Redis search converter does not read, so a stored document never converts into a search result |
| Embedder.SendAllPasses | cmd/repositoryembedder/main.go:287-314 | the run succeeds exactly when every batch is embedded |
| Embedder.PutDocsConcat | cmd/repositoryembedder/main.go:291-311 | storing the chunks of two batches in turn is storing their concatenation |
| Embedder.SendAllStopsAtFailure | cmd/repositoryembedder/main.go:288-290 | once a batch fails, the later batches are not sent and store nothing |
| Embedder.ListHashes | cmd/repositoryembedder/main.go:318-321 | the hash list names every collected hash once, in an order the model leaves open |
| Embedder.NextRunKnowsTree | cmd/repositoryembedder/main.go:238-251 | after a run over a non-empty tree whose hashes hold no ',', the next run's known hashes are exactly that tree's hashes (also lines 318-331) |
| Embedder.SecondRunSendsNothing | cmd/repositoryembedder/main.go:238-331 | a second run over the same tree sends no batch and succeeds |
| Embedder.EmptyTreeKnowsEmptyHash | cmd/repositoryembedder/main.go:248 | a run over a tree without files records "", which the next run reads as the single known hash "" (also line 323) |
| Embedder.EmbeddingStore.LoadKnownHashes | cmd/repositoryembedder/main.go:237-251 | no recorded tree gives no known hashes, a recorded one the comma-split of its list (a missing list reading as ""), and an unreachable Redis ends the job |
| Embedder.EmbeddingStore.SetCodeEmbeddings | cmd/repositoryembedder/main.go:427-460 | the search index gains each chunk's document under its key, or an unreachable Redis fails and changes nothing; the string values are untouched |
| Embedder.EmbeddingStore.Set | cmd/repositoryembedder/main.go:323-328 | the key is set to the value, or an unreachable Redis fails and changes nothing |
| Embedder.EmbeddingStore.EmbedTree | cmd/repositoryembedder/main.go:237-331 | the batches of files with unknown hashes are sent until one fails and each answer's chunks are stored; only a run in which every batch succeeds records the tree's hash list and the tree |
| Chunker.Sublines | cmd/modeldeployer/main.py:78-85 | a line of tokens is cut into sublines of 1 to max tokens each |
| Chunker.SublinesKeepTokens | cmd/modeldeployer/main.py:78-85 | the sublines hold the line's tokens, in order |
| Chunker.SplitLine | cmd/modeldeployer/main.py:78-85 | the `range(0, len(tokens), max)` loop builds the sublines of the line |
| Chunker.Place | cmd/modeldeployer/main.py:87-109 | placing one subline keeps the packing invariant (finished chunks of 1 to max tokens, each ending on the line the next starts on) and appends the subline's tokens to those placed |
| Chunker.PlaceAll | cmd/modeldeployer/main.py:87-109 | placing all sublines of a line keeps the packing invariant |
| Chunker.PackLine | cmd/modeldeployer/main.py:66-111 | one line, skipped when it has no tokens, keeps the packing invariant |
| Chunker.PackLines | cmd/modeldeployer/main.py:66-111 | the loop over all lines keeps the packing invariant |
| Chunker.PlaceAllKeepsTokens | cmd/modeldeployer/main.py:87-109 | placing sublines appends exactly their tokens to those placed before |
| Chunker.PackLineKeepsTokens | cmd/modeldeployer/main.py:66-111 | packing a line appends exactly its tokens |
| Chunker.PackLinesKeepTokens | cmd/modeldeployer/main.py:66-111 | packing lines appends all their tokens, in order |
| Chunker.PiecesProperties | cmd/modeldeployer/main.py:58-125 | chunking fails exactly when no line has a token (the unassigned end column); otherwise there is at least one chunk, every chunk has 1 to max tokens, each ends on the line the next starts on, the last ends on the last line, and together they hold all tokens in order |
| Chunker.FinishPieces | cmd/modeldeployer/main.py:113-123 | finishing the open chunk on the last line gives chunks in order holding every token placed |
| Chunker.ChunksOf | cmd/modeldeployer/main.py:95-123 | chunk i has chunk_id i, the file's hash, the decoded tokens of piece i and its start and end lines and columns |
| Chunker.TokenLines | cmd/modeldeployer/main.py:59-68 | each line is tokenized with its newline put back |
| Chunker.ChunkCode | cmd/modeldeployer/main.py:58-125 | the loop over lines and sublines returns the chunks of the chunking specification, or its error |
| Chunker.EmitChunk | cmd/modeldeployer/main.py:94-103 | emitting a chunk appends its piece, and the chunk list stays the numbered decoding of the pieces |
| Chunker.PlaceSublines | cmd/modeldeployer/main.py:87-109 | the subline loop leaves the packer state that placing all sublines specifies, emitting every finished chunk |
| Chunker.PlaceAllStep | cmd/modeldeployer/main.py:87 | placing sublines from j on is placing subline j, then those after it |
| Chunker.PlaceSubline | cmd/modeldeployer/main.py:88-109 | one round of the subline loop joins the subline to the open chunk if both fit in max tokens, otherwise emits the open chunk and opens a new one with the subline |
| Chunker.ChunkFiles | cmd/modeldeployer/main.py:36-42 | every recorded range lies within the accumulated chunk list |
| Chunker.LastFileWins | cmd/modeldeployer/main.py:36-42 | each file's range is where its chunks sit in the list, and for a repeated path the last file's range wins |
| Chunker.AnsweredPaths | cmd/modeldeployer/main.py:42-54 | a path is answered exactly when some file has it |
| Chunker.Answer | cmd/modeldeployer/main.py:49-54 | the answer has one entry per recorded path |
| Chunker.ProcessMultipleFiles | cmd/modeldeployer/main.py:31-56 | the request's answer is that of the specification: files chunked with 500 tokens, each path mapped to the chunks in its range |
| Chunker.CollectRanges | cmd/modeldeployer/main.py:49-54 | the second loop maps each path to the chunks of its range |
| Chunker.ChunkFilesFailsOn | cmd/modeldeployer/main.py:36-41 | a file that fails to chunk fails the whole request with its error |
| Chunker.RemovePrefixStripsOnce | cmd/modeldeployer/main.py:127-130 | one leading occurrence of the prefix is stripped, or the input comes back unchanged |
| Chunker.RemoveEmptySuffixErases | cmd/modeldeployer/main.py:132-135 | as written, removing the empty suffix erases the whole string, because `s[:-0]` is `s[:0]` |
| Chunker.RemoveSuffixIntendedStripsOnce | cmd/modeldeployer/main.py:132-135 | as intended, one trailing occurrence of the suffix is stripped, otherwise nothing changes, and the empty suffix changes nothing |
| MockArrays.NextId | frontend/mock/src/resolvers/model/index.ts:60 | the new id is all digits and reads back as one past the array's length |
| MockArrays.NextIdInjective | frontend/mock/src/resolvers/storage/index.ts:41 | two lengths give the same id exactly when they are equal |
| MockArrays.FindIndex | frontend/mock/src/resolvers/model/index.ts:92-95 | the first position holding the id, or -1 exactly when no element has it |
| MockArrays.Find | frontend/mock/src/resolvers/model/index.ts:50-56 | an error, the given one, exactly when no element has the id; otherwise the first element with the id |
| MockArrays.Splice | frontend/mock/src/resolvers/model/index.ts:91-98 | no match leaves the array as it was; otherwise the first element with the id is taken out and returned, the rest keep their order and the array is one shorter |
| MockArrays.Update | frontend/mock/src/resolvers/model/index.ts:69-89 | no match is reported; otherwise only the first element with the id changes, to the update of it, which is also returned |
| MockArrays.FindPushed | frontend/mock/src/resolvers/model/index.ts:58-67 | a pushed element whose id nobody else has is what find returns for that id |
| MockArrays.FindAfterPush | frontend/mock/src/resolvers/storage/index.ts:39-48 | a push does not change what find returns for an id already present |
| MockArrays.SpliceRemovesId | frontend/mock/src/resolvers/storage/index.ts:72-79 | with distinct ids, a deleted id is no longer present and the remaining ids stay distinct |
| MockArrays.MaxNumericId | frontend/mock/src/resolvers/model/index.ts:60 | no numeric id in the array exceeds the bound |
| MockArrays.FreshId | frontend/mock/src/resolvers/model/index.ts:60 | the intended new id is all digits and occurs nowhere in the array |
| MockArrays.PushFreshKeepsIdsDistinct | frontend/mock/src/resolvers/storage/index.ts:39-48 | pushing a record with a fresh id keeps every id distinct |
| MockModel.ModelApi.GetModel | frontend/mock/src/resolvers/model/index.ts:50-56 | 'Model not found' exactly when no model has the id, otherwise the first model with it |
| MockModel.ModelApi.AddModel | frontend/mock/src/resolvers/model/index.ts:58-67 | pushes and returns a model with id one past the length, display name "Org+Repo", the input's type and NOT_DEPLOYED; the earlier models are kept |
| MockModel.ModelApi.AddDeployment | frontend/mock/src/resolvers/model/index.ts:69-89 | the first model with the id gets an enabled deployment with the input's cpu and memory and is returned; otherwise 'Model not found' and nothing changes |
| MockModel.ModelApi.DeleteModel | frontend/mock/src/resolvers/model/index.ts:91-98 | the first model with the id is spliced out and returned; otherwise 'Model not found' and nothing changes |
| MockModel.AddThenDeploy | frontend/mock/src/resolvers/model/index.ts:58-89 | a model added under an id nobody has is found by it, and deploying it enables it with the given resources |
| MockModel.DeleteThenAddRepeatsId | frontend/mock/src/resolvers/model/index.ts:60-98 | after deleting model '1' from the initial array, the next model added gets an id the last initial model still has |
| MockModel.AddModelIntendedKeepsIdsDistinct | frontend/mock/src/resolvers/model/index.ts:58-67 | with a fresh id every model keeps an id of its own and the new model is what getModel of its id returns |
| MockStorage.AddAll | frontend/mock/src/resolvers/storage/index.ts:39-48 | a series of adds keeps the first storages and appends one per input |
| MockStorage.StorageApi.GetStorage | frontend/mock/src/resolvers/storage/index.ts:31-37 | 'Storage not found' exactly when no storage has the id, otherwise the first storage with it |
| MockStorage.StorageApi.AddStorage | frontend/mock/src/resolvers/storage/index.ts:39-48 | pushes and returns a storage with id one past the length, the input's name and type and NOT_DEPLOYED; the earlier storages are kept |
| MockStorage.StorageApi.AddDeployment | frontend/mock/src/resolvers/storage/index.ts:50-70 | the first storage with the id gets an enabled deployment with the input's cpu and memory and is returned; otherwise 'Storage not found' and nothing changes |
| MockStorage.StorageApi.DeleteStorage | frontend/mock/src/resolvers/storage/index.ts:72-79 | the first storage with the id is spliced out and returned; otherwise 'Storage not found' and nothing changes |
| MockStorage.FirstAddIsFour | frontend/mock/src/resolvers/storage/index.ts:4-41 | the first storage added to the initial array gets the id '4' |
| MockStorage.SeventhAddRepeatsId | frontend/mock/src/resolvers/storage/index.ts:4-41 | with nothing deleted, the seventh storage added to the initial array gets the id '10', which the first initial storage has |
| MockStorage.AddStorageIntendedKeepsIdsDistinct | frontend/mock/src/resolvers/storage/index.ts:39-48 | with a fresh id every storage keeps an id of its own and the new storage is what getStorage of its id returns |
| MockRepository.RepositoryApi.AddRepository | frontend/mock/src/resolvers/repository/index.ts:60-71 | pushes and returns a repository with id one past the length, the input's name, owner and type, display name owner/name and url type.com/owner/name |
| MockRepository.RepositoryApi.DeleteRepository | frontend/mock/src/resolvers/repository/index.ts:73-79 | the first repository with the id is spliced out and returned; with none it returns nothing, throws nothing and changes nothing |
| MockRepository.SplitThree | frontend/mock/src/resolvers/repository/index.ts:67 | text joined by a separator that none of the three parts contains splits back into the three parts |
| MockRepository.SplitTwo | frontend/mock/src/resolvers/repository/index.ts:66 | text joined by a separator that neither part contains splits back into the two parts |
| MockRepository.RepositoryFieldsSplit | frontend/mock/src/resolvers/repository/index.ts:66-67 | split at '/', the display name gives back the owner and name and the url gives back the host, owner and name, when none contains '/' |
| MockRepository.GithubUrlIsUpperCase | frontend/mock/src/resolvers/repository/index.ts:3-11 | a new GitHub repository's url starts with "GITHUB", so it never has the lower-case form of the initial GitHub repositories (also line 67) |
| MockRepository.LowerOf | frontend/mock/src/resolvers/repository/index.ts:10 | text whose characters lower-case one by one to another text lower-cases to it |
| MockRepository.InitialUrlIsIntended | frontend/mock/src/resolvers/repository/index.ts:3-11 | the first initial repository's url is the intended url of its type, owner and name, and not the one addRepository builds (also line 67) |
| MockRepository.GithubUrlIntended | frontend/mock/src/resolvers/repository/index.ts:10-67 | the intended url of a new GitHub repository starts with the initial ones' "github.com/" |
| MockPipeline.NumberedIdsAreDistinct | frontend/mock/src/resolvers/pipeline/index.ts:81-118 | ids given by position plus one are distinct |
| MockPipeline.PipelineApi.constructor | frontend/mock/src/resolvers/pipeline/index.ts:4-60 | the initial pipelines and executions, each numbered by its position |
| MockPipeline.PipelineApi.GetPipeline | frontend/mock/src/resolvers/pipeline/index.ts:67-73 | 'Pipeline not found' exactly when no pipeline has the id, otherwise the first pipeline with it |
| MockPipeline.PipelineApi.GetPipelineExecutions | frontend/mock/src/resolvers/pipeline/index.ts:75-77 | every execution, whatever the id |
| MockPipeline.PipelineApi.AddPipeline | frontend/mock/src/resolvers/pipeline/index.ts:79-94 | pushes and returns a disabled READY pipeline with the next id, the input's name, type and reference ids; an input without reference ids fails and changes nothing; numbering is kept |
| MockPipeline.PipelineApi.AddDeployment | frontend/mock/src/resolvers/pipeline/index.ts:96-108 | the first pipeline with the id is enabled, set READY and returned; otherwise 'Pipeline not found' and nothing changes; numbering is kept |
| MockPipeline.PipelineApi.Trigger | frontend/mock/src/resolvers/pipeline/index.ts:110-126 | a known pipeline gets a PENDING execution with the next id, pushed and returned; an unknown id is 'Pipeline not found' and nothing changes; numbering is kept |
| MockPipeline.PipelineIdsStayDistinct | frontend/mock/src/resolvers/pipeline/index.ts:79-126 | adding a pipeline or triggering one keeps every id distinct |

## Left out

- **I/O and networking.** Redis and Postgres connections, the Kubernetes API server's transport, HTTP to the embedding service and the search engine are not modelled. Each is a value or a function parameter, and its faults are an `offline` flag or an error result.
- **Concurrency and atomicity.** The Redis `WATCH` retry loop and the Postgres serializable transaction are not modelled. Check-and-set is modelled as one atomic step.
- **Clocks, randomness and sleeping.** Requeue delays are results. Randomness is a function parameter.
- **Floating point.** The embedding vectors are opaque values, never computed. `RedisConverters.DocToSearchResult` only checks that a search score parses and then drops it, since the GraphQL `SearchResult` has no score field.
- **The embedder and deployer internals:**
  - the tokenizer, the embedding model and the decoder behind `Chunker`;
  - the model loading and encoding in the deployer;
  - the git clone and Kubernetes plumbing of the embedder job.
- **Configuration-file and JSON encodings.**
  - The encodings are abstract: a stored payload is a datatype, and decoding anything else fails. Partial or malformed JSON is not distinguished further.
  - A hash decoded from text (`NewHash`) is the lower-cased text when it is 40 hex characters, and the zero hash otherwise. Partial decoding of other text is not modelled.
- **Redis storage wiring.** `pkg/cache/redis/storage.go` is modelled for `NewStorage` only. Its `ObjectPacks`, `DeleteOldObjectPackAndIndex` and `AddAlternate` print and return fixed answers, and are not part of this model.
- **Redis key layout.** The model assumes that `withNamespace(prefix, kind, name)` gives different keys for different arguments, and that a SCAN pattern of one (prefix, kind) matches only keys of that (prefix, kind) (`RedisClient.Key`, `RedisClient.Matches`). The definition of `withNamespace` is not part of this model.
- **Search resolver.** Of `pkg/graph/resolvers/search/search.go` only `extractContentWindowIndex` is modelled. `Semantic`, `semanticSearchPostgres`, `semanticSearchRedis`, `getRedisClient`, `getSearchClient` and `convertToBlob` are not part of this model: they are network calls to the embedding service and the databases, and float encoding.
- **Repository resolver:** `List`, `Get` and `Delete` in `pkg/graph/resolvers/repositories/repositories.go` are not part of this model. Only `Add` with its two forms is.
- **Deleting an object that was never found.** The controllers then delete an empty object, which the client refuses with "resource name may not be empty". The model follows that code, so disabling a resource whose workload is already gone reports that error rather than succeeding silently.
- **Redis iterators.** `RedisIter.ScanIter` follows the code as written. The corrected refill of the finding below is stated as specification functions (`RedisIter.NextIntendedSpec`, `RedisIter.ForEachIntendedSpec`), not as a second class.
- **Postgres iterators.** They page through the table by offset and limit. The model performs each page as one value-level step (`PostgresPaging.NextPage`, `PostgresPaging.ForEachPage`) rather than a per-row pointer walk.
- **Map iteration order.** The embedder's stored hash list comes from a Go map, so its order is unspecified. `Embedder.Enumerates` states it as a permutation of the map's keys.
- **Mock server:**
  - the `setTimeout` that flips a status to READY five seconds later is not modelled;
  - React rendering is not modelled;
  - callers of the module-level arrays could alias and mutate the records they get back, and the model's records are values, so that is not captured.
- Chunker.ChunkCode: requires a token budget of at least 1. With a budget of 0 the source raises on every input, and its one caller passes 500.
- **Explicit `null` versus a missing field** in TypeScript inputs are both `None`.
- GqlModel.UnescapeEscape, GqlModel.EscapePlain, GqlModel.UnquoteQuote, GqlModel.MarshalGQL: above U+00FF, `IsPrint` counts only the line and paragraph separators and the private-use areas as non-printable. Go's `strconv.IsPrint` also escapes unassigned, format and space characters, whose tables are not modelled. `Unquote` does not read octal escapes or `\x` escapes of bytes from 0x80 up, which `strconv.Quote` writes only for bytes that are not valid UTF-8; strings here are sequences of characters.

## Findings

| source | as written | input that shows it | evidently intended | confidence | as-written member | corrected member |
|---|---|---|---|---|---|---|
| pkg/cache/redis/storage.go:32-45 | `NewStorage` keeps `moduleNS` but builds every store with the empty prefix | two modules write different configs; the first module then reads the second one's config | each module's stores key their data under its namespace | not executed; high | RedisStores.ModulesShareConfig | RedisStores.NamespacedModulesKeepConfig |
| pkg/cache/postgres/reference.go:227-229 | check-and-set rebuilds the current reference from the row's target column, which is empty for a hash reference | a stored hash reference, checked against itself, reports `ErrReferenceHasChanged` | compare against the hash column that `Reference` reads | not executed; high | PostgresReference.CheckAndSetRejectsUnchangedHash | PostgresReference.CheckAndSetIntendedMatchesStored |
| pkg/cache/postgres/reference.go:152-153 | the iterator builds hash references from the target column | every iterated hash reference has the zero hash | the reference as stored, as `Reference` returns it | not executed; high | PostgresReference.IteratedHashReferenceLosesHash | PostgresReference.IteratedReferenceIntendedReadsBack |
| pkg/cache/postgres/object.go:193-200 | a `Scan` of no rows is not an error, so the not-found branch is never taken | the size of a missing object is 0 with no error | `ErrObjectNotFound`, as in `HasEncodedObject` | not executed; medium | PostgresObject.MissingObjectHasSizeZero | PostgresObject.EncodedObjectSizeIntendedAgreesWithHas |
| cmd/modeldeployer/main.py:132-135 | `input_string[:-len(suffix)]` with an empty suffix is `input_string[:0]` | `remove_suffix("abc", "")` is `""` | removing the empty suffix changes nothing | not executed; medium | Chunker.RemoveEmptySuffixErases | Chunker.RemoveSuffixIntendedStripsOnce |
| frontend/mock/src/resolvers/model/index.ts:60 | a new model's id is one past the array's length, and deletes shorten the array | delete model '1' from the initial models, then add a model: it gets id '4', which an initial model still has | an id no other model has | not executed; high | MockModel.DeleteThenAddRepeatsId | MockModel.AddModelIntendedKeepsIdsDistinct |
| frontend/mock/src/resolvers/storage/index.ts:41 | a new storage's id is one past the length, but the initial ids are not 1..3 | the seventh storage added to the initial storages gets id '10', which the first initial storage has | an id no other storage has | not executed; high | MockStorage.SeventhAddRepeatsId | MockStorage.AddStorageIntendedKeepsIdsDistinct |
| frontend/mock/src/resolvers/repository/index.ts:67 | the url starts with the enum value `GITHUB` | a new GitHub repository gets the url `GITHUB.com/owner/name`, unlike the initial `github.com/...` ones | the host in lower case | not executed; medium | MockRepository.GithubUrlIsUpperCase | MockRepository.GithubUrlIntended |
| pkg/cache/redis/reference.go:181-186 | `Next` refills an empty buffer with one SCAN only, and an empty batch then reads as the end; `EncodedObjectIter` in `pkg/cache/redis/object.go` has the same shape | a layout whose first two SCAN batches hold no matching key and whose third holds one: `ForEach` gives nothing | keep scanning while the buffer is empty and the cursor has not returned to 0 | not executed; high | RedisIter.MatchingKeyCanBeMissed | RedisIter.NewIteratorIntendedGivesEveryMatch |
