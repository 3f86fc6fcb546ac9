/** The repository embedder job: it checks its arguments, reads the hashes of
    the last tree it processed, queues every file of the new tree whose hash
    is not among them, sends the queue to the model in batches of 10, stores
    each returned chunk as a search document, and finally records the new
    tree and its hashes.  Kubernetes, git and the model's HTTP endpoint are
    inputs; Redis is the map of string values the job reads and writes plus
    the documents of the search index. */
module Embedder {
  import opened Wrappers
  import opened Strings
  import Common
  import RedisConverters
  import Crd = CloudApi

  // -------------------------------------------------------------- arguments

  const ErrArguments := Message("All arguments (storageId, repositoryId, modelId) are required.")

  /** The argument check; a failure ends the job with exit status 1. */
  function CheckArguments(storageId: string, repositoryId: string, modelId: string): (r: Outcome)
    ensures r.Pass? <==> storageId != "" && repositoryId != "" && modelId != ""
    ensures r.Fail? ==> r.error == ErrArguments
  {
    if storageId == "" || repositoryId == "" || modelId == "" then Fail(ErrArguments) else Pass
  }

  /** The model endpoint the embedding client posts to. */
  function BaseUrl(modelId: string, namespace: string): string
  {
    "http://" + modelId + "-predictor-default." + namespace + ".svc.cluster.local:80/v1/models/custom-model:predict"
  }

  /** The job and the resolvers address a model at the same endpoint. */
  lemma BaseUrlIsModelServiceUrl(modelId: string, namespace: string)
    ensures BaseUrl(modelId, namespace) == Common.ModelServiceUrl(modelId, namespace)
  {
  }

  /** The address of the Redis storage the job connects to. */
  function StorageAddress(name: string, namespace: string): string
  {
    name + "." + namespace + ".svc.cluster.local:6379"
  }

  lemma StorageAddressIsRedisServiceUrl(name: string, namespace: string)
    ensures StorageAddress(name, namespace) == Common.RedisServiceUrl(name, namespace)
  {
  }

  // ---------------------------------------------------------- known hashes

  /** The key holding the hash of the last processed tree. */
  const TreeKey := "embedding:tree"

  /** The key holding the comma-joined file hashes of tree `tree`. */
  function TreeListKey(tree: string): (k: string)
    ensures k != TreeKey
  {
    var k := "embedding:tree:" + tree;
    assert |k| > |TreeKey|;
    k
  }

  const ErrRedis := Foreign("redis")

  /** The hashes of the last processed tree: none when no tree is recorded,
      and the comma-split of its list otherwise; a missing list reads as "",
      whose split is [""]. */
  function KnownHashes(values: map<string, string>): set<string>
  {
    if TreeKey !in values then {}
    else
      var listKey := TreeListKey(values[TreeKey]);
      var list := if listKey in values then values[listKey] else "";
      set h | h in Split(list, ',')
  }

  /** Reading the known hashes; an unreachable Redis ends the job. */
  function KnownHashesSpec(offline: bool, values: map<string, string>): Result<set<string>>
  {
    if offline then Err(ErrRedis) else Ok(KnownHashes(values))
  }

  // -------------------------------------------------------------- batching

  datatype TreeFile = TreeFile(name: string, hash: string, content: string)

  /** `CodeEmbeddingRequest`. */
  datatype FileRequest = FileRequest(path: string, content: string, hash: string)

  const BatchSize: nat := 10

  function RequestOf(f: TreeFile): FileRequest
  {
    FileRequest(f.name, f.content, f.hash)
  }

  /** The hashes of all files of the tree. */
  function FileHashes(files: seq<TreeFile>): set<string>
  {
    if files == [] then {} else FileHashes(files[..|files| - 1]) + {files[|files| - 1].hash}
  }

  /** A hash is collected exactly when some file of the tree has it. */
  lemma {:induction false} FileHashesMembers(files: seq<TreeFile>, h: string)
    ensures h in FileHashes(files) <==> exists i :: 0 <= i < |files| && files[i].hash == h
  {
    if files != [] {
      var n := |files| - 1;
      assert forall i :: 0 <= i < n ==> files[..n][i] == files[i];
      FileHashesMembers(files[..n], h);
    }
  }

  /** The files to embed: those whose hash is not known, in tree order. */
  function Queued(files: seq<TreeFile>, known: set<string>): seq<FileRequest>
  {
    if files == [] then []
    else
      var n := |files| - 1;
      Queued(files[..n], known) + (if files[n].hash in known then [] else [RequestOf(files[n])])
  }

  /** A request is queued exactly when it is the request of a file whose
      hash is not known. */
  lemma {:induction false} QueuedMembers(files: seq<TreeFile>, known: set<string>, r: FileRequest)
    ensures r in Queued(files, known) <==>
      exists i :: 0 <= i < |files| && files[i].hash !in known && RequestOf(files[i]) == r
  {
    if files != [] {
      var n := |files| - 1;
      var front := files[..n];
      QueuedMembers(front, known, r);
      var tail := if files[n].hash in known then [] else [RequestOf(files[n])];
      assert Queued(files, known) == Queued(front, known) + tail;
      if r in Queued(front, known) {
        var i :| 0 <= i < n && front[i].hash !in known && RequestOf(front[i]) == r;
        assert files[i] == front[i];
      } else if r in tail {
        assert files[n].hash !in known && RequestOf(files[n]) == r;
      } else {
        forall i | 0 <= i < |files| && files[i].hash !in known ensures RequestOf(files[i]) != r {
          if i < n {
            assert files[i] == front[i];
          }
        }
      }
    }
  }

  function Concat(batches: seq<seq<FileRequest>>): seq<FileRequest>
  {
    if batches == [] then [] else batches[0] + Concat(batches[1..])
  }

  lemma {:induction false} ConcatAppend(batches: seq<seq<FileRequest>>, b: seq<FileRequest>)
    ensures Concat(batches + [b]) == Concat(batches) + b
  {
    if batches != [] {
      assert (batches + [b])[1..] == batches[1..] + [b];
      ConcatAppend(batches[1..], b);
    } else {
      assert [b][1..] == [];
    }
  }

  /** Every batch has 10 files, except a last one of 1 to 9. */
  predicate WellSized(batches: seq<seq<FileRequest>>)
  {
    forall i :: 0 <= i < |batches| ==>
      0 < |batches[i]| <= BatchSize && (i < |batches| - 1 ==> |batches[i]| == BatchSize)
  }

  /** The queue cut into consecutive batches of 10. */
  function Chunked(q: seq<FileRequest>): seq<seq<FileRequest>>
    decreases |q|
  {
    if q == [] then []
    else if |q| <= BatchSize then [q]
    else [q[..BatchSize]] + Chunked(q[BatchSize..])
  }

  /** The batches of `Chunked` are well sized and hold the whole queue in
      order. */
  lemma {:induction false} ChunkedSplitsQueue(q: seq<FileRequest>)
    ensures WellSized(Chunked(q)) && Concat(Chunked(q)) == q
    decreases |q|
  {
    if |q| > BatchSize {
      ChunkedSplitsQueue(q[BatchSize..]);
      var rest := Chunked(q[BatchSize..]);
      assert Chunked(q) == [q[..BatchSize]] + rest;
      assert Chunked(q)[1..] == rest;
      assert q[..BatchSize] + q[BatchSize..] == q;
    } else if q != [] {
      assert Chunked(q)[1..] == [];
    }
  }

  /** Well-sized batches are the chunking of what they hold: there is only
      one way to cut a queue into batches of 10 and a remainder. */
  lemma {:induction false} WellSizedIsChunked(batches: seq<seq<FileRequest>>)
    requires WellSized(batches)
    ensures batches == Chunked(Concat(batches))
  {
    if batches != [] {
      var rest := batches[1..];
      assert WellSized(rest) by {
        forall i | 0 <= i < |rest|
          ensures 0 < |rest[i]| <= BatchSize && (i < |rest| - 1 ==> |rest[i]| == BatchSize)
        {
          assert rest[i] == batches[i + 1];
        }
      }
      WellSizedIsChunked(rest);
      var q := Concat(batches);
      assert q == batches[0] + Concat(rest);
      if rest == [] {
        assert q == batches[0];
      } else {
        assert |batches[0]| == BatchSize;
        assert Concat(rest) == rest[0] + Concat(rest[1..]);
        assert |q| > BatchSize;
        assert q[..BatchSize] == batches[0];
        assert q[BatchSize..] == Concat(rest);
      }
    }
  }

  /** The loop over the tree's files: every hash is collected, and the files
      with unknown hashes go into batches of 10, a final shorter batch
      taking what is left. */
  method PlanBatches(files: seq<TreeFile>, known: set<string>) returns (hashes: set<string>, batches: seq<seq<FileRequest>>)
    ensures hashes == FileHashes(files)
    ensures batches == Chunked(Queued(files, known))
  {
    hashes := {};
    batches := [];
    var batch: seq<FileRequest> := [];
    var count := 0;
    for i := 0 to |files|
      invariant hashes == FileHashes(files[..i])
      invariant Concat(batches) + batch == Queued(files[..i], known)
      invariant forall j :: 0 <= j < |batches| ==> |batches[j]| == BatchSize
      invariant count == |batch| < BatchSize
    {
      PlanStep(files, known, i);
      hashes := hashes + {files[i].hash};
      if files[i].hash !in known {
        ghost var before := Concat(batches);
        assert before + (batch + [RequestOf(files[i])]) == (before + batch) + [RequestOf(files[i])];
        batch := batch + [RequestOf(files[i])];
        count := count + 1;
        if count >= BatchSize {
          ConcatAppend(batches, batch);
          assert Concat(batches + [batch]) + [] == before + batch;
          batches := batches + [batch];
          batch := [];
          count := 0;
        }
      }
    }
    assert files[..|files|] == files;
    ghost var queue := Queued(files, known);
    assert Concat(batches) + batch == queue;
    if |batch| > 0 {
      ConcatAppend(batches, batch);
      batches := batches + [batch];
    }
    assert Concat(batches) == queue;
    assert WellSized(batches);
    WellSizedIsChunked(batches);
  }

  /** One more file of the tree: its hash is collected, and it is queued
      unless its hash is known. */
  lemma PlanStep(files: seq<TreeFile>, known: set<string>, i: nat)
    requires i < |files|
    ensures FileHashes(files[..i + 1]) == FileHashes(files[..i]) + {files[i].hash}
    ensures Queued(files[..i + 1], known)
      == Queued(files[..i], known) + (if files[i].hash in known then [] else [RequestOf(files[i])])
  {
    assert files[..i + 1][..i] == files[..i];
  }

  /** A tree whose hashes are all known queues nothing. */
  lemma {:induction false} AllKnownQueuesNothing(files: seq<TreeFile>, known: set<string>)
    requires forall i :: 0 <= i < |files| ==> files[i].hash in known
    ensures Queued(files, known) == []
  {
    if files != [] {
      var n := |files| - 1;
      assert forall i :: 0 <= i < n ==> files[..n][i] == files[i];
      AllKnownQueuesNothing(files[..n], known);
    }
  }

  /** Running again over the tree just processed queues nothing. */
  lemma RerunQueuesNothing(files: seq<TreeFile>)
    ensures Queued(files, FileHashes(files)) == []
  {
    forall i | 0 <= i < |files| ensures files[i].hash in FileHashes(files) {
      FileHashesMembers(files, files[i].hash);
    }
    AllKnownQueuesNothing(files, FileHashes(files));
  }

  // ------------------------------------------------------------- documents

  /** The bits of a `float32` element of an embedding. */
  newtype Word = w: int | 0 <= w < 0x1_0000_0000

  /** `binary.Write` of one `float32` in little-endian order. */
  function WordBytes(w: Word): (b: seq<Byte>)
    ensures |b| == 4
  {
    var q1 := w as int / 0x100;
    var q2 := q1 / 0x100;
    [(w as int % 0x100) as Byte, (q1 % 0x100) as Byte, (q2 % 0x100) as Byte, (q2 / 0x100) as Byte]
  }

  /** The four little-endian bytes read back as one word. */
  function WordOf(b: seq<Byte>): Word
    requires |b| == 4
  {
    (b[0] as int + 0x100 * b[1] as int + 0x1_0000 * b[2] as int + 0x100_0000 * b[3] as int) as Word
  }

  lemma WordRoundTrip(w: Word)
    ensures WordOf(WordBytes(w)) == w
  {
    var q1 := w as int / 0x100;
    var q2 := q1 / 0x100;
    assert w as int == 0x100 * q1 + w as int % 0x100;
    assert q1 == 0x100 * q2 + q1 % 0x100;
    assert q2 == 0x100 * (q2 / 0x100) + q2 % 0x100;
  }

  /** The bytes stored for an embedding: each element's four bytes in turn. */
  function LittleEndian(v: seq<Word>): (b: seq<Byte>)
    ensures |b| == 4 * |v|
  {
    if v == [] then [] else WordBytes(v[0]) + LittleEndian(v[1..])
  }

  function FromLittleEndian(b: seq<Byte>): seq<Word>
    requires |b| % 4 == 0
  {
    if b == [] then [] else [WordOf(b[..4])] + FromLittleEndian(b[4..])
  }

  /** The stored bytes give back the embedding, element for element. */
  lemma {:induction false} LittleEndianRoundTrip(v: seq<Word>)
    ensures FromLittleEndian(LittleEndian(v)) == v
  {
    if v != [] {
      var b := LittleEndian(v);
      assert b[..4] == WordBytes(v[0]) && b[4..] == LittleEndian(v[1..]);
      WordRoundTrip(v[0]);
      LittleEndianRoundTrip(v[1..]);
    }
  }

  lemma {:induction false} LittleEndianAppend(v: seq<Word>, w: Word)
    ensures LittleEndian(v + [w]) == LittleEndian(v) + WordBytes(w)
  {
    if v != [] {
      assert (v + [w])[1..] == v[1..] + [w];
      LittleEndianAppend(v[1..], w);
    } else {
      assert [w][1..] == [];
    }
  }

  /** The encoding loop of `setCodeEmbeddings`. */
  method EncodeEmbedding(v: seq<Word>) returns (buf: seq<Byte>)
    ensures buf == LittleEndian(v)
  {
    buf := [];
    for i := 0 to |v|
      invariant buf == LittleEndian(v[..i])
    {
      LittleEndianAppend(v[..i], v[i]);
      assert v[..i + 1] == v[..i] + [v[i]];
      buf := buf + WordBytes(v[i]);
    }
    assert v[..|v|] == v;
  }

  /** `CodeEmbeddingChunk`, with the embedding as the bits of its floats. */
  datatype EmbeddingChunk = EmbeddingChunk(
    chunkId: int, fileHash: string, code: string,
    startLine: int, endLine: int, startColumn: int, endColumn: int, embedding: seq<Word>)

  /** The fields of the search document stored for a chunk. */
  datatype ChunkDoc = ChunkDoc(
    fileHash: string, chunkId: int, startLine: int, endLine: int, startColumn: int, endColumn: int,
    embedding: seq<Byte>)

  /** The key of a chunk's document: "embedding:code:<fileHash>:<chunkID>". */
  function ChunkKey(fileHash: string, chunkId: int): string
  {
    "embedding:code:" + fileHash + ":" + IntToDecimal(chunkId)
  }

  function KeyOf(c: EmbeddingChunk): string
  {
    ChunkKey(c.fileHash, c.chunkId)
  }

  function DocOf(c: EmbeddingChunk): ChunkDoc
  {
    ChunkDoc(c.fileHash, c.chunkId, c.startLine, c.endLine, c.startColumn, c.endColumn, LittleEndian(c.embedding))
  }

  lemma {:induction false} NatToDecimalInjective(m: nat, n: nat)
    requires NatToDecimal(m) == NatToDecimal(n)
    ensures m == n
  {
    DigitsValueOfNat(m);
    DigitsValueOfNat(n);
  }

  /** Different numbers have different decimal texts. */
  lemma IntToDecimalInjective(i: int, j: int)
    requires IntToDecimal(i) == IntToDecimal(j)
    ensures i == j
  {
    DecimalSign(i);
    DecimalSign(j);
    if i < 0 {
      assert NatToDecimal(-i) == IntToDecimal(i)[1..] == IntToDecimal(j)[1..] == NatToDecimal(-j);
      NatToDecimalInjective(-i, -j);
    } else {
      NatToDecimalInjective(i, j);
    }
  }

  /** The text of a number starts with '-' exactly when it is negative. */
  lemma DecimalSign(i: int)
    ensures |IntToDecimal(i)| >= 1 && (IntToDecimal(i)[0] == '-' <==> i < 0)
  {
    if i >= 0 {
      assert IsDigit(NatToDecimal(i)[0]);
    }
  }

  lemma NoColonInDecimal(i: int)
    ensures ':' !in IntToDecimal(i)
  {
    var d := IntToDecimal(i);
    if i < 0 {
      var digits := NatToDecimal(-i);
      assert d == "-" + digits;
      assert forall k :: 1 <= k < |d| ==> d[k] == digits[k - 1];
    }
    assert forall k :: 0 <= k < |d| ==> d[k] == '-' || IsDigit(d[k]);
  }

  /** Chunks of file hashes without ':' have the same key only when they
      have the same file hash and chunk number: distinct chunks never
      overwrite each other. */
  lemma ChunkKeyInjective(h1: string, c1: int, h2: string, c2: int)
    requires ':' !in h1 && ':' !in h2
    requires ChunkKey(h1, c1) == ChunkKey(h2, c2)
    ensures h1 == h2 && c1 == c2
  {
    var p := "embedding:code:";
    var k := ChunkKey(h1, c1);
    var d1 := IntToDecimal(c1);
    var d2 := IntToDecimal(c2);
    NoColonInDecimal(c1);
    NoColonInDecimal(c2);
    var at1 := |p| + |h1|;
    var at2 := |p| + |h2|;
    assert k[at1] == ':' && k[at1 + 1..] == d1;
    assert k[at2] == ':' && k[at2 + 1..] == d2;
    LastIndexOfIs(k, ':', at1);
    LastIndexOfIs(k, ':', at2);
    assert d1 == d2;
    IntToDecimalInjective(c1, c2);
    assert h1 == k[|p|..at1] == h2;
  }

  /** The key and document stored for each chunk, in order. */
  function Entries(chunks: seq<EmbeddingChunk>): (es: seq<(string, ChunkDoc)>)
  {
    seq(|chunks|, i requires 0 <= i < |chunks| => (KeyOf(chunks[i]), DocOf(chunks[i])))
  }

  /** Documents put in turn, a later one replacing an earlier one under the
      same key. */
  function Store(docs: map<string, ChunkDoc>, entries: seq<(string, ChunkDoc)>): map<string, ChunkDoc>
  {
    if entries == [] then docs
    else
      var n := |entries| - 1;
      Store(docs, entries[..n])[entries[n].0 := entries[n].1]
  }

  /** `IndexOptions` with `Replace`: each chunk's document is put under its
      key. */
  function PutDocs(docs: map<string, ChunkDoc>, chunks: seq<EmbeddingChunk>): map<string, ChunkDoc>
  {
    Store(docs, Entries(chunks))
  }

  /** The loop of `setCodeEmbeddings` that builds one document per chunk,
      keyed by its file hash and chunk number. */
  method BuildDocs(chunks: seq<EmbeddingChunk>) returns (pending: seq<(string, ChunkDoc)>)
    ensures pending == Entries(chunks)
  {
    pending := [];
    for i := 0 to |chunks|
      invariant |pending| == i
      invariant forall j :: 0 <= j < i ==> pending[j] == (KeyOf(chunks[j]), DocOf(chunks[j]))
    {
      var c := chunks[i];
      var key := ChunkKey(c.fileHash, c.chunkId);
      var buf := EncodeEmbedding(c.embedding);
      pending := pending + [(key, ChunkDoc(c.fileHash, c.chunkId, c.startLine, c.endLine, c.startColumn, c.endColumn, buf))];
    }
  }

  /** The documents put one after the other. */
  method PutEach(docs: map<string, ChunkDoc>, pending: seq<(string, ChunkDoc)>) returns (updated: map<string, ChunkDoc>)
    ensures updated == Store(docs, pending)
  {
    updated := docs;
    for j := 0 to |pending|
      invariant updated == Store(docs, pending[..j])
    {
      assert pending[..j + 1][..j] == pending[..j];
      updated := updated[pending[j].0 := pending[j].1];
    }
    assert pending[..|pending|] == pending;
  }

  /** With distinct keys, every entry is stored, and every other key keeps
      its document. */
  lemma {:induction false} StoreKeepsEach(docs: map<string, ChunkDoc>, entries: seq<(string, ChunkDoc)>)
    requires forall i, j :: 0 <= i < j < |entries| ==> entries[i].0 != entries[j].0
    ensures forall i :: 0 <= i < |entries| ==>
      entries[i].0 in Store(docs, entries) && Store(docs, entries)[entries[i].0] == entries[i].1
    ensures forall k :: k in docs && (forall i :: 0 <= i < |entries| ==> entries[i].0 != k) ==>
      k in Store(docs, entries) && Store(docs, entries)[k] == docs[k]
  {
    if entries != [] {
      var n := |entries| - 1;
      var front := entries[..n];
      assert forall i :: 0 <= i < n ==> front[i] == entries[i];
      StoreKeepsEach(docs, front);
    }
  }

  /** When no two chunks share a file hash and chunk number, every chunk's
      document holds that chunk, and keys of no chunk keep their documents. */
  lemma PutDocsStoresEach(docs: map<string, ChunkDoc>, chunks: seq<EmbeddingChunk>)
    requires forall i :: 0 <= i < |chunks| ==> ':' !in chunks[i].fileHash
    requires forall i, j :: 0 <= i < j < |chunks| ==>
      (chunks[i].fileHash, chunks[i].chunkId) != (chunks[j].fileHash, chunks[j].chunkId)
    ensures forall i :: 0 <= i < |chunks| ==>
      KeyOf(chunks[i]) in PutDocs(docs, chunks) && PutDocs(docs, chunks)[KeyOf(chunks[i])] == DocOf(chunks[i])
    ensures forall k :: k in docs && (forall i :: 0 <= i < |chunks| ==> KeyOf(chunks[i]) != k) ==>
      k in PutDocs(docs, chunks) && PutDocs(docs, chunks)[k] == docs[k]
  {
    var es := Entries(chunks);
    forall i, j | 0 <= i < j < |es| ensures es[i].0 != es[j].0 {
      if KeyOf(chunks[i]) == KeyOf(chunks[j]) {
        ChunkKeyInjective(chunks[i].fileHash, chunks[i].chunkId, chunks[j].fileHash, chunks[j].chunkId);
      }
    }
    StoreKeepsEach(docs, es);
    assert PutDocs(docs, chunks) == Store(docs, es);
    forall i | 0 <= i < |chunks|
      ensures KeyOf(chunks[i]) in PutDocs(docs, chunks) && PutDocs(docs, chunks)[KeyOf(chunks[i])] == DocOf(chunks[i])
    {
      assert es[i] == (KeyOf(chunks[i]), DocOf(chunks[i]));
    }
  }

  /** The document as the search index hands it back: every field as text,
      the embedding as bytes. */
  function AsDocument(key: string, d: ChunkDoc): RedisConverters.Document
  {
    RedisConverters.Document(key, map[
      "file_hash" := RedisConverters.Text(d.fileHash),
      "chunk_id" := RedisConverters.Text(IntToDecimal(d.chunkId)),
      "start_line" := RedisConverters.Text(IntToDecimal(d.startLine)),
      "end_line" := RedisConverters.Text(IntToDecimal(d.endLine)),
      "start_column" := RedisConverters.Text(IntToDecimal(d.startColumn)),
      "end_column" := RedisConverters.Text(IntToDecimal(d.endColumn)),
      "embedding" := RedisConverters.NonText])
  }

  /** The job names its fields file_hash, chunk_id, start_line, ..., while
      the Redis search converter reads chunkID, fileHash, filePath,
      startIndex and endIndex: a document the job stores never converts. */
  lemma StoredChunkDoesNotConvert(key: string, d: ChunkDoc, repo: Crd.Repository, parseScore: string -> bool)
    requires repo.spec.typ == Crd.RepositoryTypeGithub && repo.spec.github.Some?
    ensures RedisConverters.DocToSearchResult(AsDocument(key, d), repo, parseScore)
      == Err(Message("failed to convert chunk to int"))
  {
    RedisConverters.MissingChunkIdFirst(AsDocument(key, d), repo, parseScore);
  }

  // ---------------------------------------------------------------- the run

  /** The embedding service: the chunks of one batch's files, or an error.
      Its answer is a map from file to chunks, iterated in an order the
      model does not fix, so the answer is taken as a sequence. */
  type Embed = seq<FileRequest> -> Result<seq<EmbeddingChunk>>

  /** The batches sent in turn until the first failure: the outcome and the
      chunks of the batches that succeeded. */
  function SendAll(batches: seq<seq<FileRequest>>, embed: Embed): (Outcome, seq<EmbeddingChunk>)
  {
    if batches == [] then (Pass, [])
    else
      var n := |batches| - 1;
      var (o, chunks) := SendAll(batches[..n], embed);
      if o.Fail? then (o, chunks)
      else match embed(batches[n])
        case Err(e) => (Fail(e), chunks)
        case Ok(more) => (Pass, chunks + more)
  }

  /** The run succeeds exactly when every batch is embedded. */
  lemma {:induction false} SendAllPasses(batches: seq<seq<FileRequest>>, embed: Embed)
    ensures SendAll(batches, embed).0.Pass? <==> forall i :: 0 <= i < |batches| ==> embed(batches[i]).Ok?
  {
    if batches != [] {
      var n := |batches| - 1;
      assert forall i :: 0 <= i < n ==> batches[..n][i] == batches[i];
      SendAllPasses(batches[..n], embed);
    }
  }

  lemma {:induction false} StoreConcat(docs: map<string, ChunkDoc>, a: seq<(string, ChunkDoc)>, b: seq<(string, ChunkDoc)>)
    ensures Store(Store(docs, a), b) == Store(docs, a + b)
  {
    if b == [] {
      assert a + b == a;
    } else {
      var n := |b| - 1;
      StoreConcat(docs, a, b[..n]);
      var ab := a + b;
      assert ab[..|ab| - 1] == a + b[..n];
    }
  }

  /** Storing two lists of chunks in turn stores their concatenation. */
  lemma PutDocsConcat(docs: map<string, ChunkDoc>, a: seq<EmbeddingChunk>, b: seq<EmbeddingChunk>)
    ensures PutDocs(PutDocs(docs, a), b) == PutDocs(docs, a + b)
  {
    EntriesConcat(a, b);
    StoreConcat(docs, Entries(a), Entries(b));
  }

  lemma EntriesConcat(a: seq<EmbeddingChunk>, b: seq<EmbeddingChunk>)
    ensures Entries(a + b) == Entries(a) + Entries(b)
  {
    var l := Entries(a + b);
    var r := Entries(a) + Entries(b);
    forall i | 0 <= i < |l| ensures l[i] == r[i] {
      if i < |a| {
        assert (a + b)[i] == a[i];
      } else {
        assert (a + b)[i] == b[i - |a|];
      }
    }
  }

  /** Once a batch fails, the later batches are not sent and change nothing. */
  lemma {:induction false} SendAllStopsAtFailure(batches: seq<seq<FileRequest>>, embed: Embed, i: nat)
    requires i < |batches| && SendAll(batches[..i], embed).0.Pass? && embed(batches[i]).Err?
    ensures SendAll(batches, embed) == (Fail(embed(batches[i]).error), SendAll(batches[..i], embed).1)
  {
    var n := |batches| - 1;
    if n == i {
      assert batches[..n] == batches[..i];
    } else {
      assert batches[..n][..i] == batches[..i];
      SendAllStopsAtFailure(batches[..n], embed, i);
    }
  }

  /** `list` lists the members of `s`, each once. */
  ghost predicate Enumerates(list: seq<string>, s: set<string>)
  {
    (forall x :: x in list <==> x in s) && forall i, j :: 0 <= i < j < |list| ==> list[i] != list[j]
  }

  /** The map the hash list is built from is iterated in no fixed order:
      any listing of the hashes, each once. */
  method ListHashes(hashes: set<string>) returns (list: seq<string>)
    ensures Enumerates(list, hashes)
  {
    list := [];
    var rest := hashes;
    while rest != {}
      invariant forall x :: x in hashes <==> x in list || x in rest
      invariant forall x :: x in list ==> x !in rest
      invariant forall i, j :: 0 <= i < j < |list| ==> list[i] != list[j]
      decreases |rest|
    {
      var h :| h in rest;
      list := list + [h];
      rest := rest - {h};
    }
  }

  /** What the job records at the end of a run over tree `tree`. */
  function Record(values: map<string, string>, tree: string, list: seq<string>): map<string, string>
  {
    values[TreeListKey(tree) := Join(list, ",")][TreeKey := tree]
  }

  /** After a run over a non-empty tree whose hashes hold no ',', the next
      run knows exactly that tree's hashes. */
  lemma NextRunKnowsTree(values: map<string, string>, tree: string, list: seq<string>, files: seq<TreeFile>)
    requires files != [] && Enumerates(list, FileHashes(files))
    requires forall i :: 0 <= i < |files| ==> ',' !in files[i].hash
    ensures KnownHashes(Record(values, tree, list)) == FileHashes(files)
  {
    var after := Record(values, tree, list);
    var listKey := TreeListKey(tree);
    assert TreeKey in after && after[TreeKey] == tree;
    assert listKey in after && after[listKey] == Join(list, [',']);
    FileHashesMembers(files, files[0].hash);
    assert |list| >= 1;
    forall k | 0 <= k < |list| ensures ',' !in list[k] {
      ListedHashHasNoComma(list, files, k);
    }
    SplitJoin(list, ',');
    assert Split(after[listKey], ',') == list;
    EnumeratedSet(list, FileHashes(files));
  }

  lemma EnumeratedSet(list: seq<string>, s: set<string>)
    requires Enumerates(list, s)
    ensures (set h | h in list) == s
  {
  }

  /** A second run over the same tree, after the first one recorded it,
      sends nothing to the model. */
  lemma SecondRunSendsNothing(values: map<string, string>, tree: string, list: seq<string>, files: seq<TreeFile>, embed: Embed)
    requires files != [] && Enumerates(list, FileHashes(files))
    requires forall i :: 0 <= i < |files| ==> ',' !in files[i].hash
    ensures Chunked(Queued(files, KnownHashes(Record(values, tree, list)))) == []
    ensures SendAll(Chunked(Queued(files, KnownHashes(Record(values, tree, list)))), embed) == (Pass, [])
  {
    NextRunKnowsTree(values, tree, list, files);
    RerunQueuesNothing(files);
  }

  lemma ListedHashHasNoComma(list: seq<string>, files: seq<TreeFile>, k: nat)
    requires Enumerates(list, FileHashes(files)) && k < |list|
    requires forall i :: 0 <= i < |files| ==> ',' !in files[i].hash
    ensures ',' !in list[k]
  {
    assert list[k] in list;
    FileHashesMembers(files, list[k]);
    var i :| 0 <= i < |files| && files[i].hash == list[k];
  }

  /** A run over a tree without files records an empty list, which the next
      run reads as the single hash "". */
  lemma EmptyTreeKnowsEmptyHash(values: map<string, string>, tree: string)
    ensures KnownHashes(Record(values, tree, [])) == {""}
  {
    var after := Record(values, tree, []);
    assert after[TreeListKey(tree)] == "";
    assert Split("", ',') == [""];
  }

  /** The Redis the job talks to: string values, and the documents of the
      "embedding" search index.  `offline` makes every call fail. */
  class EmbeddingStore {
    var values: map<string, string>
    var docs: map<string, ChunkDoc>
    var offline: bool

    constructor(values: map<string, string>, docs: map<string, ChunkDoc>, offline: bool)
      ensures this.values == values && this.docs == docs && this.offline == offline
    {
      this.values, this.docs, this.offline := values, docs, offline;
    }

    method LoadKnownHashes() returns (r: Result<set<string>>)
      ensures r == KnownHashesSpec(offline, values)
    {
      if offline {
        return Err(ErrRedis);
      }
      var hashes: set<string> := {};
      if TreeKey in values {
        var listKey := TreeListKey(values[TreeKey]);
        var list := if listKey in values then values[listKey] else "";
        var parts := Split(list, ',');
        for i := 0 to |parts|
          invariant hashes == set h | h in parts[..i]
        {
          assert parts[..i + 1] == parts[..i] + [parts[i]];
          hashes := hashes + {parts[i]};
        }
        assert parts[..|parts|] == parts;
      }
      return Ok(hashes);
    }

    /** `setCodeEmbeddings`: one document per chunk, stored in one call. */
    method SetCodeEmbeddings(chunks: seq<EmbeddingChunk>) returns (r: Outcome)
      modifies this
      ensures old(offline) ==> r == Fail(ErrRedis) && docs == old(docs)
      ensures !old(offline) ==> r == Pass && docs == PutDocs(old(docs), chunks)
      ensures values == old(values) && offline == old(offline)
    {
      var pending := BuildDocs(chunks);
      if offline {
        return Fail(ErrRedis);
      }
      docs := PutEach(docs, pending);
      return Pass;
    }

    method Set(key: string, value: string) returns (r: Outcome)
      modifies this
      ensures old(offline) ==> r == Fail(ErrRedis) && values == old(values)
      ensures !old(offline) ==> r == Pass && values == old(values)[key := value]
      ensures docs == old(docs) && offline == old(offline)
    {
      if offline {
        return Fail(ErrRedis);
      }
      values := values[key := value];
      return Pass;
    }

    /** The job after its arguments, the repository and the storage are
        resolved and the tree is fetched: `files` are the tree's files in
        iteration order.  Batches are sent as the loop fills them; nothing
        the loop reads depends on the answers, so sending them after the
        loop has the same effect.  A failure ends the job (`log.Fatal`). */
    method EmbedTree(files: seq<TreeFile>, tree: string, embed: Embed) returns (r: Outcome, ghost list: seq<string>)
      modifies this
      ensures old(offline) ==> r == Fail(ErrRedis) && values == old(values) && docs == old(docs)
      ensures !old(offline) ==>
        var (sent, chunks) := SendAll(Chunked(Queued(files, KnownHashes(old(values)))), embed);
        docs == PutDocs(old(docs), chunks) && r == sent
        && (r.Fail? ==> values == old(values))
        && (r.Pass? ==> Enumerates(list, FileHashes(files)) && values == Record(old(values), tree, list))
      ensures offline == old(offline)
    {
      list := [];
      var known := LoadKnownHashes();
      if known.Err? {
        return Fail(known.error), list;
      }
      var hashes, batches := PlanBatches(files, known.value);
      for i := 0 to |batches|
        invariant SendAll(batches[..i], embed).0 == Pass
        invariant docs == PutDocs(old(docs), SendAll(batches[..i], embed).1)
        invariant values == old(values) && offline == old(offline) && !offline
      {
        ghost var sent := SendAll(batches[..i], embed).1;
        var embeddings := embed(batches[i]);
        if embeddings.Err? {
          SendAllStopsAtFailure(batches, embed, i);
          return Fail(embeddings.error), list;
        }
        assert batches[..i + 1][..i] == batches[..i];
        assert SendAll(batches[..i + 1], embed) == (Pass, sent + embeddings.value);
        var stored := SetCodeEmbeddings(embeddings.value);
        PutDocsConcat(old(docs), sent, embeddings.value);
      }
      assert batches[..|batches|] == batches;
      var hashList := ListHashes(hashes);
      var written := Set(TreeListKey(tree), Join(hashList, ","));
      written := Set(TreeKey, tree);
      list := hashList;
      return Pass, list;
    }
  }
}
