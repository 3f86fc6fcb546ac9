/** `RedisEmbeddingDocToSearchResult`: a search hit read from a RediSearch
    document. */
module RedisConverters {
  import opened Wrappers
  import opened Strings
  import Api = GqlModel
  import Crd = CloudApi

  /** A document property: a string or a value of some other type. */
  datatype Property = Text(s: string) | NonText

  /** A RediSearch document: its id and its properties. */
  datatype Document = Document(id: string, properties: map<string, Property>)

  predicate HasText(doc: Document, key: string)
  {
    key in doc.properties && doc.properties[key].Text?
  }

  /** The string value of a property, or `missing` when the property is
      absent or not a string. */
  function TextProperty(doc: Document, key: string, missing: Error): (r: Result<string>)
    ensures r.Ok? <==> HasText(doc, key)
    ensures r.Ok? ==> r.value == doc.properties[key].s
    ensures r.Err? ==> r.error == missing
  {
    if HasText(doc, key) then Ok(doc.properties[key].s) else Err(missing)
  }

  /** A decimal property. */
  function IntProperty(doc: Document, key: string, missing: Error): (r: Result<int>)
    ensures r.Ok? ==> TextProperty(doc, key, missing).Ok? && Atoi(TextProperty(doc, key, missing).value) == r
    ensures TextProperty(doc, key, missing).Err? ==> r == Err(missing)
  {
    var s :- TextProperty(doc, key, missing);
    Atoi(s)
  }

  /** The converter.  The properties are read in the order chunkID,
      fileHash, filePath, __vec_score, startIndex, endIndex and the first
      failure is returned.  `parseScore` tells whether `strconv.ParseFloat`
      accepts the score; the score itself is not kept. */
  function DocToSearchResult(doc: Document, repo: Crd.Repository, parseScore: string -> bool): (r: Result<Api.SearchResult>)
    ensures repo.spec.typ != Crd.RepositoryTypeGithub ==>
      r == Err(Message("unsupported repository type: " + repo.spec.typ))
    ensures r.Ok? ==>
      repo.spec.typ == Crd.RepositoryTypeGithub && repo.spec.github.Some?
      && r.value.id == doc.id
      && r.value.owner == repo.spec.github.value.owner && r.value.repo == repo.spec.github.value.name
      && HasText(doc, "chunkID") && Atoi(doc.properties["chunkID"].s) == Ok(r.value.chunkId)
      && HasText(doc, "fileHash") && r.value.hash == doc.properties["fileHash"].s
      && HasText(doc, "filePath") && r.value.path == doc.properties["filePath"].s
      && HasText(doc, "__vec_score") && parseScore(doc.properties["__vec_score"].s)
      && HasText(doc, "startIndex") && Atoi(doc.properties["startIndex"].s) == Ok(r.value.startIndex)
      && HasText(doc, "endIndex") && Atoi(doc.properties["endIndex"].s) == Ok(r.value.endIndex)
  {
    if repo.spec.typ != Crd.RepositoryTypeGithub then
      Err(Message("unsupported repository type: " + repo.spec.typ))
    else if repo.spec.github.None? then
      Err(Panic("nil pointer dereference: Spec.Github"))
    else
      var gh := repo.spec.github.value;
      var chunkId :- IntProperty(doc, "chunkID", Message("failed to convert chunk to int"));
      var hash :- TextProperty(doc, "fileHash", Message("hash property not found in the document"));
      var path :- TextProperty(doc, "filePath", Message("filePath property not found in the document"));
      var score :- TextProperty(doc, "__vec_score", Message("vec_score property not found in the document"));
      if !parseScore(score) then Err(Foreign("strconv.ParseFloat")) else
      var startIndex :- IntProperty(doc, "startIndex", Message("startIndex property not found in the document"));
      var endIndex :- IntProperty(doc, "endIndex", Message("endIndex property not found in the document"));
      Ok(Api.SearchResult(doc.id, chunkId, "", hash, path, gh.owner, gh.name, startIndex, endIndex, 0))
  }

  /** The document the embedder writes for one chunk (its content and
      vector aside). */
  function ChunkDocument(id: string, chunkId: int, hash: string, path: string, score: string,
                         startIndex: int, endIndex: int): Document
  {
    Document(id, map["chunkID" := Text(IntToDecimal(chunkId)), "fileHash" := Text(hash),
                     "filePath" := Text(path), "__vec_score" := Text(score),
                     "startIndex" := Text(IntToDecimal(startIndex)), "endIndex" := Text(IntToDecimal(endIndex))])
  }

  /** The properties of a chunk document, as the converter reads them. */
  lemma ChunkDocumentProperties(id: string, chunkId: int, hash: string, path: string, score: string,
                                startIndex: int, endIndex: int)
    ensures var p := ChunkDocument(id, chunkId, hash, path, score, startIndex, endIndex).properties;
      p["chunkID"] == Text(IntToDecimal(chunkId)) && p["fileHash"] == Text(hash)
      && p["filePath"] == Text(path) && p["__vec_score"] == Text(score)
      && p["startIndex"] == Text(IntToDecimal(startIndex)) && p["endIndex"] == Text(IntToDecimal(endIndex))
  {
  }

  /** A decimal property written by the embedder reads back as its number. */
  lemma DecimalPropertyRoundTrip(doc: Document, key: string, missing: Error, i: int)
    requires IsInt64(i) && key in doc.properties && doc.properties[key] == Text(IntToDecimal(i))
    ensures IntProperty(doc, key, missing) == Ok(i)
  {
    AtoiOfDecimal(i);
  }

  /** A document holding a chunk's fields in decimal converts back to those
      fields. */
  lemma ChunkDocumentRoundTrip(id: string, chunkId: int, hash: string, path: string, score: string,
                               startIndex: int, endIndex: int, repo: Crd.Repository, parseScore: string -> bool)
    requires IsInt64(chunkId) && IsInt64(startIndex) && IsInt64(endIndex)
    requires repo.spec.typ == Crd.RepositoryTypeGithub && repo.spec.github.Some?
    requires parseScore(score)
    ensures DocToSearchResult(ChunkDocument(id, chunkId, hash, path, score, startIndex, endIndex), repo, parseScore)
      == Ok(Api.SearchResult(id, chunkId, "", hash, path, repo.spec.github.value.owner, repo.spec.github.value.name,
                             startIndex, endIndex, 0))
  {
    var doc := ChunkDocument(id, chunkId, hash, path, score, startIndex, endIndex);
    ChunkDocumentProperties(id, chunkId, hash, path, score, startIndex, endIndex);
    DecimalPropertyRoundTrip(doc, "chunkID", Message("failed to convert chunk to int"), chunkId);
    DecimalPropertyRoundTrip(doc, "startIndex", Message("startIndex property not found in the document"), startIndex);
    DecimalPropertyRoundTrip(doc, "endIndex", Message("endIndex property not found in the document"), endIndex);
  }

  /** The first failing check decides the error: a document without a
      string chunkID fails on it whatever else is missing. */
  lemma MissingChunkIdFirst(doc: Document, repo: Crd.Repository, parseScore: string -> bool)
    requires repo.spec.typ == Crd.RepositoryTypeGithub && repo.spec.github.Some?
    requires !HasText(doc, "chunkID")
    ensures DocToSearchResult(doc, repo, parseScore) == Err(Message("failed to convert chunk to int"))
  {
  }
}
