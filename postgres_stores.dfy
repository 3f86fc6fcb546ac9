/** The small stores of the Postgres backend: the shallow commits, the config
    and the index, one row each per namespace prefix (the url column). */
module PostgresStores {
  import opened Wrappers
  import opened GitPlumbing
  import opened Database

  // ---------------------------------------------------------------- shallow

  /** The conflict rule of `SetShallow`: the hashes are replaced; the url is
      the key and stays. */
  function ReplaceShallow(current: ShallowRow, incoming: ShallowRow): ShallowRow
  {
    incoming
  }

  /** `SetShallow`: an upsert of the hashes' texts on url. */
  function SetShallowSpec(offline: bool, rows: seq<ShallowRow>, prefix: string, commits: seq<Hash>)
    : (Outcome, seq<ShallowRow>)
  {
    if offline then (Fail(ErrQuery), rows)
    else (Pass, Upsert(rows, ShallowRow(prefix, commits), ShallowKey, ReplaceShallow))
  }

  /** The hashes `plumbing.NewHash` makes of stored texts, in order. */
  function NewHashes(texts: seq<string>): (hs: seq<Hash>)
    ensures |hs| == |texts|
    ensures forall i :: 0 <= i < |texts| ==> hs[i] == NewHash(texts[i])
  {
    if texts == [] then [] else [NewHash(texts[0])] + NewHashes(texts[1..])
  }

  /** `Shallow`: the row's hashes, or none when there is no row; other read
      errors are returned. */
  function ShallowSpec(offline: bool, rows: seq<ShallowRow>, prefix: string): Result<seq<Hash>>
  {
    if offline then Err(ErrQuery)
    else match Lookup(rows, prefix, ShallowKey)
      case None => Ok([])
      case Some(row) => Ok(NewHashes(row.hashes))
  }

  /** `SetShallow` replaces what is stored (the Redis store takes the union):
      `Shallow` then gives exactly the hashes written, in the order written,
      and other namespaces read as before. */
  lemma SetShallowReplaces(rows: seq<ShallowRow>, prefix: string, commits: seq<Hash>, other: string)
    requires KeysUnique(rows, ShallowKey)
    ensures var (r, after) := SetShallowSpec(false, rows, prefix, commits);
      r == Pass && KeysUnique(after, ShallowKey) && ShallowSpec(false, after, prefix) == Ok(commits)
      && (other != prefix ==> ShallowSpec(false, after, other) == ShallowSpec(false, rows, other))
  {
    var row := ShallowRow(prefix, commits);
    assert ShallowKey(row) == prefix;
    UpsertSpec(rows, row, ShallowKey, ReplaceShallow, other);
    var after := Upsert(rows, row, ShallowKey, ReplaceShallow);
    assert SetShallowSpec(false, rows, prefix, commits) == (Pass, after);
    assert Lookup(after, prefix, ShallowKey) == Some(row);
    forall i | 0 <= i < |commits| ensures NewHashes(commits)[i] == commits[i] {
      NewHashOfString(commits[i]);
    }
    assert NewHashes(commits) == commits;
  }

  /** Of two writes the second wins, whatever the first held. */
  lemma SetShallowLastWins(rows: seq<ShallowRow>, prefix: string, first: seq<Hash>, second: seq<Hash>)
    requires KeysUnique(rows, ShallowKey)
    ensures var once := SetShallowSpec(false, rows, prefix, first).1;
      ShallowSpec(false, SetShallowSpec(false, once, prefix, second).1, prefix) == Ok(second)
  {
    SetShallowReplaces(rows, prefix, first, prefix);
    SetShallowReplaces(SetShallowSpec(false, rows, prefix, first).1, prefix, second, prefix);
  }

  /** No row reads as no hashes; a lost connection is returned as an error,
      and a failed write changes nothing. */
  lemma ShallowOutcomes(offline: bool, rows: seq<ShallowRow>, prefix: string, commits: seq<Hash>)
    ensures !offline && Lookup(rows, prefix, ShallowKey).None? ==> ShallowSpec(offline, rows, prefix) == Ok([])
    ensures offline ==> ShallowSpec(offline, rows, prefix) == Err(ErrQuery)
    ensures offline ==> SetShallowSpec(offline, rows, prefix, commits) == (Fail(ErrQuery), rows)
  {
  }

  // ----------------------------------------------------------------- config

  /** The conflict rule of `SetConfig` and `SetIndex`: just the blob. */
  function ReplaceConfig(current: ConfigRow, incoming: ConfigRow): ConfigRow
  {
    incoming
  }

  /** `SetConfig`: an upsert of the config's JSON encoding on url. */
  function SetConfigSpec(offline: bool, rows: seq<ConfigRow>, prefix: string, cfg: Config): (Outcome, seq<ConfigRow>)
  {
    if offline then (Fail(ErrQuery), rows)
    else (Pass, Upsert(rows, ConfigRow(prefix, Json(ConfigDoc(cfg))), ConfigKey, ReplaceConfig))
  }

  /** `Config`: no row is a new config; any other read error is dropped and
      the empty blob it leaves fails to decode. */
  function ConfigSpec(offline: bool, rows: seq<ConfigRow>, prefix: string): Result<Config>
  {
    if offline then UnmarshalConfig(NoData)
    else match Lookup(rows, prefix, ConfigKey)
      case None => Ok(DefaultConfig)
      case Some(row) => UnmarshalConfig(row.blob)
  }

  /** `SetConfig(c)` then `Config()` gives `c`; other namespaces read as
      before. */
  lemma ConfigRoundTrip(rows: seq<ConfigRow>, prefix: string, cfg: Config, other: string)
    requires KeysUnique(rows, ConfigKey)
    ensures var (r, after) := SetConfigSpec(false, rows, prefix, cfg);
      r == Pass && KeysUnique(after, ConfigKey) && ConfigSpec(false, after, prefix) == Ok(cfg)
      && (other != prefix ==> ConfigSpec(false, after, other) == ConfigSpec(false, rows, other))
  {
    var row := ConfigRow(prefix, Json(ConfigDoc(cfg)));
    assert ConfigKey(row) == prefix;
    UpsertSpec(rows, row, ConfigKey, ReplaceConfig, other);
    var after := Upsert(rows, row, ConfigKey, ReplaceConfig);
    assert SetConfigSpec(false, rows, prefix, cfg) == (Pass, after);
    assert Lookup(after, prefix, ConfigKey) == Some(row);
  }

  /** No row reads as the default config, and a lost connection as the
      decoding error rather than the query's. */
  lemma ConfigReadOutcomes(offline: bool, rows: seq<ConfigRow>, prefix: string)
    ensures !offline && Lookup(rows, prefix, ConfigKey).None? ==> ConfigSpec(offline, rows, prefix) == Ok(DefaultConfig)
    ensures offline ==> ConfigSpec(offline, rows, prefix) == Err(UnmarshalError)
  {
    NoDataDoesNotDecode();
  }

  // ------------------------------------------------------------------ index

  function ReplaceIndex(current: IndexRow, incoming: IndexRow): IndexRow
  {
    incoming
  }

  /** `SetIndex`: an upsert of the index's JSON encoding on url. */
  function SetIndexSpec(offline: bool, rows: seq<IndexRow>, prefix: string, idx: Index): (Outcome, seq<IndexRow>)
  {
    if offline then (Fail(ErrQuery), rows)
    else (Pass, Upsert(rows, IndexRow(prefix, Json(IndexDoc(idx))), IndexKey, ReplaceIndex))
  }

  /** `Index`: no row is `{Version: 2}`; any other read error is dropped and
      the empty blob fails to decode. */
  function IndexSpec(offline: bool, rows: seq<IndexRow>, prefix: string): Result<Index>
  {
    if offline then UnmarshalIndex(NoData)
    else match Lookup(rows, prefix, IndexKey)
      case None => Ok(DefaultIndex)
      case Some(row) => UnmarshalIndex(row.blob)
  }

  lemma IndexRoundTrip(rows: seq<IndexRow>, prefix: string, idx: Index, other: string)
    requires KeysUnique(rows, IndexKey)
    ensures var (r, after) := SetIndexSpec(false, rows, prefix, idx);
      r == Pass && KeysUnique(after, IndexKey) && IndexSpec(false, after, prefix) == Ok(idx)
      && (other != prefix ==> IndexSpec(false, after, other) == IndexSpec(false, rows, other))
  {
    var row := IndexRow(prefix, Json(IndexDoc(idx)));
    assert IndexKey(row) == prefix;
    UpsertSpec(rows, row, IndexKey, ReplaceIndex, other);
    var after := Upsert(rows, row, IndexKey, ReplaceIndex);
    assert SetIndexSpec(false, rows, prefix, idx) == (Pass, after);
    assert Lookup(after, prefix, IndexKey) == Some(row);
  }

  lemma IndexReadOutcomes(offline: bool, rows: seq<IndexRow>, prefix: string)
    ensures !offline && Lookup(rows, prefix, IndexKey).None? ==> IndexSpec(offline, rows, prefix) == Ok(Index(2, []))
    ensures offline ==> IndexSpec(offline, rows, prefix) == Err(UnmarshalError)
  {
    NoDataDoesNotDecode();
  }

  // ---------------------------------------------------------------- classes

  class ShallowStorage {
    const db: Database
    const namespacePrefix: string

    constructor(db: Database, namespacePrefix: string)
      ensures this.db == db && this.namespacePrefix == namespacePrefix
    {
      this.db := db;
      this.namespacePrefix := namespacePrefix;
    }

    method SetShallow(commits: seq<Hash>) returns (r: Outcome)
      modifies db
      ensures (r, db.shallows) == SetShallowSpec(old(db.offline), old(db.shallows), namespacePrefix, commits)
      ensures db.offline == old(db.offline) && db.objects == old(db.objects) && db.references == old(db.references)
      ensures db.configs == old(db.configs) && db.indexes == old(db.indexes) && db.codeEmbeddings == old(db.codeEmbeddings)
    {
      var hashes: seq<string> := [];
      for i := 0 to |commits|
        invariant hashes == commits[..i]
      {
        hashes := hashes + [commits[i]];
      }
      assert hashes == commits;
      if db.offline {
        return Fail(ErrQuery);
      }
      db.shallows := Upsert(db.shallows, ShallowRow(namespacePrefix, hashes), ShallowKey, ReplaceShallow);
      return Pass;
    }

    method Shallow() returns (r: Result<seq<Hash>>)
      ensures r == ShallowSpec(db.offline, db.shallows, namespacePrefix)
    {
      if db.offline {
        return Err(ErrQuery);
      }
      var entry := Lookup(db.shallows, namespacePrefix, ShallowKey);
      if entry.None? {
        return Ok([]);
      }
      var texts := entry.value.hashes;
      var hashes: seq<Hash> := [];
      for i := 0 to |texts|
        invariant |hashes| == i
        invariant forall j :: 0 <= j < i ==> hashes[j] == NewHash(texts[j])
      {
        hashes := hashes + [NewHash(texts[i])];
      }
      assert hashes == NewHashes(texts);
      return Ok(hashes);
    }
  }

  class ConfigStorage {
    const db: Database
    const namespacePrefix: string

    constructor(db: Database, namespacePrefix: string)
      ensures this.db == db && this.namespacePrefix == namespacePrefix
    {
      this.db := db;
      this.namespacePrefix := namespacePrefix;
    }

    method SetConfig(cfg: Config) returns (r: Outcome)
      modifies db
      ensures (r, db.configs) == SetConfigSpec(old(db.offline), old(db.configs), namespacePrefix, cfg)
      ensures db.offline == old(db.offline) && db.objects == old(db.objects) && db.references == old(db.references)
      ensures db.shallows == old(db.shallows) && db.indexes == old(db.indexes) && db.codeEmbeddings == old(db.codeEmbeddings)
    {
      if db.offline {
        return Fail(ErrQuery);
      }
      db.configs := Upsert(db.configs, ConfigRow(namespacePrefix, Json(ConfigDoc(cfg))), ConfigKey, ReplaceConfig);
      return Pass;
    }

    method Config() returns (r: Result<Config>)
      ensures r == ConfigSpec(db.offline, db.configs, namespacePrefix)
    {
      var blob := NoData;
      if !db.offline {
        var found := Lookup(db.configs, namespacePrefix, ConfigKey);
        if found.None? {
          return Ok(DefaultConfig);
        }
        blob := found.value.blob;
      }
      r := UnmarshalConfig(blob);
    }
  }

  class IndexStorage {
    const db: Database
    const namespacePrefix: string

    constructor(db: Database, namespacePrefix: string)
      ensures this.db == db && this.namespacePrefix == namespacePrefix
    {
      this.db := db;
      this.namespacePrefix := namespacePrefix;
    }

    method SetIndex(idx: Index) returns (r: Outcome)
      modifies db
      ensures (r, db.indexes) == SetIndexSpec(old(db.offline), old(db.indexes), namespacePrefix, idx)
      ensures db.offline == old(db.offline) && db.objects == old(db.objects) && db.references == old(db.references)
      ensures db.configs == old(db.configs) && db.shallows == old(db.shallows) && db.codeEmbeddings == old(db.codeEmbeddings)
    {
      if db.offline {
        return Fail(ErrQuery);
      }
      db.indexes := Upsert(db.indexes, IndexRow(namespacePrefix, Json(IndexDoc(idx))), IndexKey, ReplaceIndex);
      return Pass;
    }

    method Index() returns (r: Result<Index>)
      ensures r == IndexSpec(db.offline, db.indexes, namespacePrefix)
    {
      var blob := NoData;
      if !db.offline {
        var found := Lookup(db.indexes, namespacePrefix, IndexKey);
        if found.None? {
          return Ok(DefaultIndex);
        }
        blob := found.value.blob;
      }
      r := UnmarshalIndex(blob);
    }
  }
}
