/** The small stores of the Redis backend (shallow commits, the config, the
    index, the set of modules) and `Storage`, which bundles every store of
    one repository over one client. */
module RedisStores {
  import opened Wrappers
  import opened GitPlumbing
  import opened RedisClient
  import opened RedisReference
  import opened RedisObject

  // ---------------------------------------------------------------- shallow

  function ShallowKey(prefix: string): Key
  {
    Ns(prefix, "shallow", "")
  }

  /** `SetShallow`: one SADD of the hashes' texts; without hashes the server
      refuses the command. */
  function SetShallowSpec(db: Db, prefix: string, commits: seq<Hash>): (Outcome, Db)
  {
    db.SAdd(ShallowKey(prefix), commits)
  }

  /** The hashes `plumbing.NewHash` makes of the members of a set. */
  function ShallowHashes(members: set<string>): set<Hash>
  {
    set m | m in members :: NewHash(m)
  }

  /** `Shallow`: the hashes of the set's members; a missing set is empty. */
  function ShallowSpec(db: Db, prefix: string): Result<set<Hash>>
  {
    match db.SMembers(ShallowKey(prefix))
    case Err(e) => Err(e)
    case Ok(members) => Ok(ShallowHashes(members))
  }

  /** `SetShallow` adds to what is stored rather than replacing it, and
      `Shallow` then gives the union. */
  lemma SetShallowAccumulates(db: Db, prefix: string, commits: seq<Hash>)
    requires ShallowSpec(db, prefix).Ok? && commits != []
    ensures var (r, after) := SetShallowSpec(db, prefix, commits);
      r == Pass && ShallowSpec(after, prefix) == Ok(ShallowSpec(db, prefix).value + set c | c in commits)
  {
    var after := SetShallowSpec(db, prefix, commits).1;
    var before := db.SMembers(ShallowKey(prefix)).value;
    var added: set<Hash> := set c | c in commits;
    var now := after.SMembers(ShallowKey(prefix)).value;
    assert now == before + set c | c in commits;
    var want := ShallowHashes(before) + added;
    forall h | h in ShallowHashes(now) ensures h in want {
      var m :| m in now && NewHash(m) == h;
      if m !in before {
        var i :| 0 <= i < |commits| && commits[i] == m;
        NewHashOfString(commits[i]);
      }
    }
    forall h | h in want ensures h in ShallowHashes(now) {
      if h in added {
        NewHashOfString(h);
        assert h in now;
      } else {
        var m :| m in before && NewHash(m) == h;
        assert m in now;
      }
    }
    assert ShallowHashes(now) == want;
  }

  /** Storing the same hashes again changes nothing. */
  lemma SetShallowIdempotent(db: Db, prefix: string, commits: seq<Hash>)
    ensures var (_, once) := SetShallowSpec(db, prefix, commits);
      SetShallowSpec(once, prefix, commits).1.data == once.data
      && SetShallowSpec(once, prefix, commits).1.layout == once.layout
  {
    SAddIdempotent(db, ShallowKey(prefix), commits);
  }

  /** The ways `SetShallow` fails; it then writes nothing. */
  lemma SetShallowErrors(db: Db, prefix: string, commits: seq<Hash>)
    ensures var (r, after) := SetShallowSpec(db, prefix, commits);
      (r.Fail? ==> after == db)
      && (db.offline ==> r == Fail(ErrConnection))
      && (!db.offline && commits == [] ==> r == Fail(ErrSAddArity))
      && (!db.offline && commits != [] && ShallowKey(prefix) in db.data && db.data[ShallowKey(prefix)].Str? ==>
            r == Fail(ErrWrongType))
  {
  }

  // ----------------------------------------------------------------- config

  function ConfigKey(prefix: string): Key
  {
    Ns(prefix, "config", "")
  }

  function SetConfigSpec(db: Db, prefix: string, cfg: Config): (Outcome, Db)
  {
    db.Set(ConfigKey(prefix), Json(ConfigDoc(cfg)))
  }

  /** `Config`: a missing key is a new config; any other read error leaves
      no data, whose decoding fails. */
  function ConfigSpec(db: Db, prefix: string): Result<Config>
  {
    match db.Get(ConfigKey(prefix))
    case Err(e) => if e == ErrNil then Ok(DefaultConfig) else UnmarshalConfig(NoData)
    case Ok(data) => UnmarshalConfig(data)
  }

  lemma ConfigRoundTrip(db: Db, prefix: string, cfg: Config)
    requires !db.offline
    ensures var (r, after) := SetConfigSpec(db, prefix, cfg);
      r == Pass && ConfigSpec(after, prefix) == Ok(cfg)
  {
  }

  /** A missing key reads as the default config, and a failed read as the
      decoding error rather than the read error. */
  lemma ConfigReadOutcomes(db: Db, prefix: string)
    ensures !db.offline && ConfigKey(prefix) !in db.data ==> ConfigSpec(db, prefix) == Ok(DefaultConfig)
    ensures db.Get(ConfigKey(prefix)).Err? && db.Get(ConfigKey(prefix)).error != ErrNil ==>
              ConfigSpec(db, prefix) == Err(UnmarshalError)
    ensures ConfigSpec(db, prefix).Ok? && ConfigKey(prefix) in db.data ==>
              db.data[ConfigKey(prefix)] == Str(Json(ConfigDoc(ConfigSpec(db, prefix).value)))
  {
    NoDataDoesNotDecode();
  }

  // ------------------------------------------------------------------ index

  function IndexKey(prefix: string): Key
  {
    Ns(prefix, "index", "")
  }

  function SetIndexSpec(db: Db, prefix: string, idx: Index): (Outcome, Db)
  {
    db.Set(IndexKey(prefix), Json(IndexDoc(idx)))
  }

  /** `Index`: a missing key is an empty index of version 2; any other read
      error leaves no data, whose decoding fails. */
  function IndexSpec(db: Db, prefix: string): Result<Index>
  {
    match db.Get(IndexKey(prefix))
    case Err(e) => if e == ErrNil then Ok(DefaultIndex) else UnmarshalIndex(NoData)
    case Ok(data) => UnmarshalIndex(data)
  }

  lemma IndexRoundTrip(db: Db, prefix: string, idx: Index)
    requires !db.offline
    ensures var (r, after) := SetIndexSpec(db, prefix, idx);
      r == Pass && IndexSpec(after, prefix) == Ok(idx)
  {
  }

  lemma IndexReadOutcomes(db: Db, prefix: string)
    ensures !db.offline && IndexKey(prefix) !in db.data ==> IndexSpec(db, prefix) == Ok(Index(2, []))
    ensures db.Get(IndexKey(prefix)).Err? && db.Get(IndexKey(prefix)).error != ErrNil ==>
              IndexSpec(db, prefix) == Err(UnmarshalError)
    ensures IndexSpec(db, prefix).Ok? && IndexKey(prefix) in db.data ==>
              db.data[IndexKey(prefix)] == Str(Json(IndexDoc(IndexSpec(db, prefix).value)))
  {
    NoDataDoesNotDecode();
  }

  /** The config, index and shallow keys of one prefix are three keys. */
  lemma SmallStoresKeysDiffer(prefix: string)
    ensures ConfigKey(prefix) != IndexKey(prefix) && IndexKey(prefix) != ShallowKey(prefix)
      && ConfigKey(prefix) != ShallowKey(prefix)
  {
    assert "config"[0] != "index"[0] && "index"[0] != "shallow"[0] && "config"[0] != "shallow"[0];
  }

  // ---------------------------------------------------------------- modules

  /** The set of module names. */
  const ModulesKey := Plain("modules")

  /** `fmt.Sprintf("modules:%s", name)`. */
  function ModuleNamespace(name: string): string
  {
    "modules:" + name
  }

  /** `Module`: make sure `name` is in the set of modules, adding it only
      when it is absent; the result is the module's namespace. */
  function ModuleSpec(db: Db, name: string): (Result<string>, Db)
  {
    match db.SIsMember(ModulesKey, name)
    case Err(e) => (Err(e), db)
    case Ok(exists_) =>
      if exists_ then (Ok(ModuleNamespace(name)), db)
      else
        var (o, after) := db.SAdd(ModulesKey, [name]);
        if o.Fail? then (Err(o.error), db) else (Ok(ModuleNamespace(name)), after)
  }

  /** After `Module(name)` the name is a module, and the namespace is the
      name's; a failure changes nothing. */
  lemma ModuleRegisters(db: Db, name: string)
    ensures var (r, after) := ModuleSpec(db, name);
      (r.Ok? ==> r.value == ModuleNamespace(name) && after.SIsMember(ModulesKey, name) == Ok(true))
      && (r.Err? ==> after == db && (r.error == ErrConnection || r.error == ErrWrongType))
      && (r.Ok? <==> db.SMembers(ModulesKey).Ok?)
  {
  }

  /** A second `Module(name)` leaves the store as the first left it. */
  lemma ModuleIdempotent(db: Db, name: string)
    requires ModuleSpec(db, name).0.Ok?
    ensures var after := ModuleSpec(db, name).1;
      ModuleSpec(after, name) == (Ok(ModuleNamespace(name)), after)
  {
    ModuleRegisters(db, name);
  }

  /** Different module names give different namespaces. */
  lemma ModuleNamespaceInjective(a: string, b: string)
    requires ModuleNamespace(a) == ModuleNamespace(b)
    ensures a == b
  {
    assert a == ModuleNamespace(a)[|"modules:"|..];
  }

  // ---------------------------------------------------------------- storage

  class ShallowStorage {
    const client: Client
    const namespacePrefix: string

    constructor(client: Client, namespacePrefix: string)
      ensures this.client == client && this.namespacePrefix == namespacePrefix
    {
      this.client := client;
      this.namespacePrefix := namespacePrefix;
    }

    method SetShallow(commits: seq<Hash>) returns (r: Outcome)
      modifies client
      ensures (r, client.db) == SetShallowSpec(old(client.db), namespacePrefix, commits)
    {
      var hashes: seq<string> := [];
      for i := 0 to |commits|
        invariant hashes == commits[..i]
      {
        hashes := hashes + [commits[i]];
      }
      assert commits[..|commits|] == commits;
      r := client.SAdd(ShallowKey(namespacePrefix), hashes);
    }

    /** The hashes in some order, one per member. */
    method Shallow() returns (r: Result<seq<Hash>>)
      ensures r.Ok? <==> ShallowSpec(client.db, namespacePrefix).Ok?
      ensures r.Ok? ==> (set h | h in r.value) == ShallowSpec(client.db, namespacePrefix).value
      ensures r.Ok? ==> |r.value| == |client.db.SMembers(ShallowKey(namespacePrefix)).value|
      ensures r.Err? ==> r.error == ShallowSpec(client.db, namespacePrefix).error
    {
      var members := client.SMembers(ShallowKey(namespacePrefix));
      if members.Err? {
        return Err(members.error);
      }
      var listed := members.value;
      var commits: seq<Hash> := [];
      for i := 0 to |listed|
        invariant |commits| == i
        invariant forall j :: 0 <= j < i ==> commits[j] == NewHash(listed[j])
      {
        commits := commits + [NewHash(listed[i])];
      }
      ghost var stored := client.db.SMembers(ShallowKey(namespacePrefix)).value;
      forall h | h in ShallowHashes(stored) ensures h in commits {
        var m :| m in stored && NewHash(m) == h;
        assert m in (set x | x in listed);
        var j :| 0 <= j < |listed| && listed[j] == m;
        assert commits[j] == h;
      }
      DistinctSetSize(listed);
      return Ok(commits);
    }
  }

  /** A sequence without repeats has as many elements as its set. */
  lemma {:induction false} DistinctSetSize(s: seq<string>)
    requires forall i, j :: 0 <= i < j < |s| ==> s[i] != s[j]
    ensures |set x | x in s| == |s|
  {
    if s != [] {
      var n := |s| - 1;
      DistinctSetSize(s[..n]);
      assert (set x | x in s) == (set x | x in s[..n]) + {s[n]};
      assert s[n] !in (set x | x in s[..n]);
    }
  }

  class ConfigStorage {
    const client: Client
    const namespacePrefix: string

    constructor(client: Client, namespacePrefix: string)
      ensures this.client == client && this.namespacePrefix == namespacePrefix
    {
      this.client := client;
      this.namespacePrefix := namespacePrefix;
    }

    method SetConfig(cfg: Config) returns (r: Outcome)
      modifies client
      ensures (r, client.db) == SetConfigSpec(old(client.db), namespacePrefix, cfg)
    {
      r := client.Set(ConfigKey(namespacePrefix), Json(ConfigDoc(cfg)));
    }

    method Config() returns (r: Result<Config>)
      ensures r == ConfigSpec(client.db, namespacePrefix)
    {
      var data := client.Get(ConfigKey(namespacePrefix));
      var bytes := NoData;
      if data.Err? {
        if data.error == ErrNil {
          return Ok(DefaultConfig);
        }
      } else {
        bytes := data.value;
      }
      r := UnmarshalConfig(bytes);
    }
  }

  class IndexStorage {
    const client: Client
    const namespacePrefix: string

    constructor(client: Client, namespacePrefix: string)
      ensures this.client == client && this.namespacePrefix == namespacePrefix
    {
      this.client := client;
      this.namespacePrefix := namespacePrefix;
    }

    method SetIndex(idx: Index) returns (r: Outcome)
      modifies client
      ensures (r, client.db) == SetIndexSpec(old(client.db), namespacePrefix, idx)
    {
      r := client.Set(IndexKey(namespacePrefix), Json(IndexDoc(idx)));
    }

    method Index() returns (r: Result<Index>)
      ensures r == IndexSpec(client.db, namespacePrefix)
    {
      var data := client.Get(IndexKey(namespacePrefix));
      var bytes := NoData;
      if data.Err? {
        if data.error == ErrNil {
          return Ok(DefaultIndex);
        }
      } else {
        bytes := data.value;
      }
      r := UnmarshalIndex(bytes);
    }
  }

  /** Every store of one repository, over one client; `moduleNS` is the
      namespace the storage was made for. */
  class Storage {
    const client: Client
    const moduleNS: string
    const config: ConfigStorage
    const index: IndexStorage
    const objects: ObjectStorage
    const modules: ModuleStorage
    const shallow: ShallowStorage
    const references: ReferenceStorage

    /** The prefix every key-building store of this storage uses. */
    predicate StoresUse(client: Client, prefix: string)
    {
      this.client == client && config.client == client && index.client == client && objects.client == client
      && modules.client == client && shallow.client == client && references.client == client
      && config.namespacePrefix == prefix && index.namespacePrefix == prefix
      && objects.namespacePrefix == prefix && shallow.namespacePrefix == prefix
      && references.namespacePrefix == prefix
    }

    /** `NewStorage` as written: `moduleNS` is kept, but no store is given a
        prefix, so every store uses the empty one. */
    constructor(client: Client, moduleNS: string)
      ensures this.moduleNS == moduleNS && StoresUse(client, "")
    {
      this.client := client;
      this.moduleNS := moduleNS;
      config := new ConfigStorage(client, "");
      index := new IndexStorage(client, "");
      objects := new ObjectStorage(client, "");
      modules := new ModuleStorage(client);
      shallow := new ShallowStorage(client, "");
      references := new ReferenceStorage(client, "");
    }

    /** `NewStorage` as its namespace argument means it: every store keys
        its data under `moduleNS`. */
    constructor Namespaced(client: Client, moduleNS: string)
      ensures this.moduleNS == moduleNS && StoresUse(client, moduleNS)
    {
      this.client := client;
      this.moduleNS := moduleNS;
      config := new ConfigStorage(client, moduleNS);
      index := new IndexStorage(client, moduleNS);
      objects := new ObjectStorage(client, moduleNS);
      modules := new ModuleStorage(client);
      shallow := new ShallowStorage(client, moduleNS);
      references := new ReferenceStorage(client, moduleNS);
    }
  }

  /** As written, the storages of all modules use the empty prefix, so
      the config one module writes replaces the one another module wrote. */
  lemma ModulesShareConfig(db: Db, cfgA: Config, cfgB: Config)
    requires !db.offline && cfgA != cfgB
    ensures var written := SetConfigSpec(SetConfigSpec(db, "", cfgA).1, "", cfgB).1;
      ConfigSpec(written, "") == Ok(cfgB) && ConfigSpec(written, "") != Ok(cfgA)
  {
    ConfigRoundTrip(SetConfigSpec(db, "", cfgA).1, "", cfgB);
  }

  /** Two storages `Module` returns, for any two module names, share their
      config key: after the first module's storage writes its config and
      the second's writes another, the first reads back the second's. */
  lemma ModuleStoragesShareConfig(first: Storage, second: Storage, client: Client, db: Db, cfgA: Config, cfgB: Config)
    requires first.StoresUse(client, "") && second.StoresUse(client, "")
    requires !db.offline && cfgA != cfgB
    ensures ConfigKey(first.config.namespacePrefix) == ConfigKey(second.config.namespacePrefix)
    ensures var written := SetConfigSpec(SetConfigSpec(db, first.config.namespacePrefix, cfgA).1,
                                         second.config.namespacePrefix, cfgB).1;
      ConfigSpec(written, first.config.namespacePrefix) == Ok(cfgB)
  {
    ModulesShareConfig(db, cfgA, cfgB);
  }

  /** With the namespace as prefix, a module's config is its own. */
  lemma NamespacedModulesKeepConfig(db: Db, a: string, b: string, cfgA: Config, cfgB: Config)
    requires !db.offline && a != b
    ensures var written := SetConfigSpec(SetConfigSpec(db, ModuleNamespace(a), cfgA).1, ModuleNamespace(b), cfgB).1;
      ConfigSpec(written, ModuleNamespace(a)) == Ok(cfgA) && ConfigSpec(written, ModuleNamespace(b)) == Ok(cfgB)
  {
    if ModuleNamespace(a) == ModuleNamespace(b) {
      ModuleNamespaceInjective(a, b);
    }
  }

  class ModuleStorage {
    const client: Client

    constructor(client: Client)
      ensures this.client == client
    {
      this.client := client;
    }

    /** The storer of module `name`, made by `NewStorage` as written, so
        its stores use the empty prefix whatever the name; the go-redis
        client it opens with the same options is modelled as this client. */
    method Module(name: string) returns (r: Result<Storage>)
      modifies client
      ensures var (ns, db) := ModuleSpec(old(client.db), name);
        client.db == db && (r.Ok? <==> ns.Ok?)
        && (r.Ok? ==> fresh(r.value) && r.value.moduleNS == ns.value && r.value.StoresUse(client, ""))
        && (r.Err? ==> r.error == ns.error)
    {
      var key := ModuleNamespace(name);
      var exists_ := client.SIsMember(ModulesKey, name);
      if exists_.Err? {
        return Err(exists_.error);
      }
      if !exists_.value {
        var added := client.SAdd(ModulesKey, [name]);
        match added
        case Fail(e) => return Err(e);
        case Pass =>
      }
      var storage := new Storage(client, key);
      return Ok(storage);
    }
  }
}
