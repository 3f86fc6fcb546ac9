/** The Postgres connection layer: the connection string, the per-string
    cache of open connections, and the tables with their primary keys. */
module Database {
  import opened Wrappers
  import opened Strings
  import opened GitPlumbing

  /** One `key=value` setting of a connection string. */
  function Setting(k: string, v: string): string { k + "=" + v }

  /** `ConstructPostgresDSN`: the format
      "host=%s user=%s password=%s dbname=%s port=%s sslmode=%s TimeZone=%s". */
  function ConstructPostgresDsn(host: string, user: string, password: string, dbname: string,
                                port: string, sslmode: string, timezone: string): string
  {
    Setting("host", host) + " " + Setting("user", user) + " " + Setting("password", password) + " "
      + Setting("dbname", dbname) + " " + Setting("port", port) + " " + Setting("sslmode", sslmode) + " "
      + Setting("TimeZone", timezone)
  }

  /** The settings of a connection string in the order they appear. */
  function DsnSettings(host: string, user: string, password: string, dbname: string,
                       port: string, sslmode: string, timezone: string): seq<(string, string)>
  {
    [("host", host), ("user", user), ("password", password), ("dbname", dbname),
     ("port", port), ("sslmode", sslmode), ("TimeZone", timezone)]
  }

  /** One `key=value` setting: the key ends at the first '='. */
  function ParseSetting(piece: string): (kv: (string, string))
    ensures '=' !in kv.0
  {
    var i := IndexOf(piece, '=');
    if i < 0 then (piece, "") else (piece[..i], piece[i + 1..])
  }

  function ParseSettings(pieces: seq<string>): (kvs: seq<(string, string)>)
    ensures |kvs| == |pieces|
  {
    if pieces == [] then [] else [ParseSetting(pieces[0])] + ParseSettings(pieces[1..])
  }

  /** How libpq reads a connection string whose values hold no spaces:
      settings separated by ' ', each split at its first '='. */
  function ParseDsn(dsn: string): seq<(string, string)>
  {
    ParseSettings(Split(dsn, ' '))
  }

  lemma ParseSettingOf(k: string, v: string)
    requires '=' !in k
    ensures ParseSetting(Setting(k, v)) == (k, v)
  {
    var s := Setting(k, v);
    assert s[|k|] == '=' && s[..|k|] == k && s[|k| + 1..] == v;
  }

  lemma JoinSeven(a: string, b: string, c: string, d: string, e: string, f: string, g: string, sep: string)
    ensures Join([a, b, c, d, e, f, g], sep) == a + sep + b + sep + c + sep + d + sep + e + sep + f + sep + g
  {
    var p := [a, b, c, d, e, f, g];
    assert p[6..] == [g];
    JoinCons(f, p[6..], sep); assert p[5..] == [f] + p[6..];
    JoinCons(e, p[5..], sep); assert p[4..] == [e] + p[5..];
    JoinCons(d, p[4..], sep); assert p[3..] == [d] + p[4..];
    JoinCons(c, p[3..], sep); assert p[2..] == [c] + p[3..];
    JoinCons(b, p[2..], sep); assert p[1..] == [b] + p[2..];
    JoinCons(a, p[1..], sep); assert p == [a] + p[1..];
  }

  lemma ParseSettingsSeven(a: string, b: string, c: string, d: string, e: string, f: string, g: string)
    ensures ParseSettings([a, b, c, d, e, f, g])
      == [ParseSetting(a), ParseSetting(b), ParseSetting(c), ParseSetting(d), ParseSetting(e),
          ParseSetting(f), ParseSetting(g)]
  {
    var p := [a, b, c, d, e, f, g];
    assert p[6..] == [g] && p[6..][1..] == [];
    assert ParseSettings(p[6..]) == [ParseSetting(g)];
    assert p[5..][1..] == p[6..];
    assert ParseSettings(p[5..]) == [ParseSetting(f)] + ParseSettings(p[6..]);
    assert p[4..][1..] == p[5..];
    assert ParseSettings(p[4..]) == [ParseSetting(e)] + ParseSettings(p[5..]);
    assert p[3..][1..] == p[4..];
    assert ParseSettings(p[3..]) == [ParseSetting(d)] + ParseSettings(p[4..]);
    assert p[2..][1..] == p[3..];
    assert ParseSettings(p[2..]) == [ParseSetting(c)] + ParseSettings(p[3..]);
    assert p[1..][1..] == p[2..];
    assert ParseSettings(p[1..]) == [ParseSetting(b)] + ParseSettings(p[2..]);
  }

  lemma SettingWithoutSpace(k: string, v: string)
    requires ' ' !in k && ' ' !in v
    ensures ' ' !in Setting(k, v)
  {
  }

  /** The connection string carries exactly the seven settings, in order,
      provided no value contains a space. */
  lemma DsnRoundTrip(host: string, user: string, password: string, dbname: string,
                     port: string, sslmode: string, timezone: string)
    requires ' ' !in host && ' ' !in user && ' ' !in password && ' ' !in dbname
    requires ' ' !in port && ' ' !in sslmode && ' ' !in timezone
    ensures ParseDsn(ConstructPostgresDsn(host, user, password, dbname, port, sslmode, timezone))
      == DsnSettings(host, user, password, dbname, port, sslmode, timezone)
  {
    SplitDsn(host, user, password, dbname, port, sslmode, timezone);
    ParsePieces(host, user, password, dbname, port, sslmode, timezone);
  }

  /** Each of the seven pieces parses to its key and value. */
  lemma ParsePieces(host: string, user: string, password: string, dbname: string,
                    port: string, sslmode: string, timezone: string)
    ensures ParseSettings(DsnPieces(host, user, password, dbname, port, sslmode, timezone))
      == DsnSettings(host, user, password, dbname, port, sslmode, timezone)
  {
    var p := DsnPieces(host, user, password, dbname, port, sslmode, timezone);
    ParseSettingsSeven(p[0], p[1], p[2], p[3], p[4], p[5], p[6]);
    ParseSettingOf("host", host);
    ParseSettingOf("user", user);
    ParseSettingOf("password", password);
    ParseSettingOf("dbname", dbname);
    ParseSettingOf("port", port);
    ParseSettingOf("sslmode", sslmode);
    ParseSettingOf("TimeZone", timezone);
  }

  /** The seven `key=value` pieces of a connection string. */
  function DsnPieces(host: string, user: string, password: string, dbname: string,
                     port: string, sslmode: string, timezone: string): seq<string>
  {
    [Setting("host", host), Setting("user", user), Setting("password", password),
     Setting("dbname", dbname), Setting("port", port), Setting("sslmode", sslmode),
     Setting("TimeZone", timezone)]
  }

  /** Without spaces in the values, splitting the connection string at ' '
      gives its seven settings. */
  lemma SplitDsn(host: string, user: string, password: string, dbname: string,
                 port: string, sslmode: string, timezone: string)
    requires ' ' !in host && ' ' !in user && ' ' !in password && ' ' !in dbname
    requires ' ' !in port && ' ' !in sslmode && ' ' !in timezone
    ensures Split(ConstructPostgresDsn(host, user, password, dbname, port, sslmode, timezone), ' ')
      == DsnPieces(host, user, password, dbname, port, sslmode, timezone)
  {
    var p := DsnPieces(host, user, password, dbname, port, sslmode, timezone);
    JoinSeven(p[0], p[1], p[2], p[3], p[4], p[5], p[6], " ");
    SettingWithoutSpace("host", host);
    SettingWithoutSpace("user", user);
    SettingWithoutSpace("password", password);
    SettingWithoutSpace("dbname", dbname);
    SettingWithoutSpace("port", port);
    SettingWithoutSpace("sslmode", sslmode);
    SettingWithoutSpace("TimeZone", timezone);
    SplitJoin(p, ' ');
  }

  // The tables.  Each row type has the primary key its table declares;
  // the Postgres stores upsert on that key.

  datatype ObjectRow = ObjectRow(hash: string, typ: string, blob: seq<Byte>, size: int, url: string)
  datatype ReferenceRow = ReferenceRow(name: string, typ: string, target: string, hash: string, url: string)
  /** The blob of a config or index row holds the JSON encoding the store
      wrote. */
  datatype ConfigRow = ConfigRow(url: string, blob: Payload)
  datatype ShallowRow = ShallowRow(url: string, hashes: seq<string>)
  datatype IndexRow = IndexRow(url: string, blob: Payload)
  /** A chunk's embedding; the vector of floats is not part of the model. */
  datatype CodeEmbeddingRow = CodeEmbeddingRow(
    url: string, fileHash: string, filePath: string, chunkId: int, startIndex: int, endIndex: int)

  function ObjectKey(r: ObjectRow): (string, string) { (r.hash, r.url) }
  function ReferenceKey(r: ReferenceRow): (string, string) { (r.name, r.url) }
  function ConfigKey(r: ConfigRow): string { r.url }
  function ShallowKey(r: ShallowRow): string { r.url }
  function IndexKey(r: IndexRow): string { r.url }
  function CodeEmbeddingKey(r: CodeEmbeddingRow): (string, string, string, int)
  {
    (r.url, r.fileHash, r.filePath, r.chunkId)
  }

  /** No two rows of a table share a primary key. */
  predicate KeysUnique<R, K(==)>(rows: seq<R>, key: R -> K)
  {
    forall i, j :: 0 <= i < j < |rows| ==> key(rows[i]) != key(rows[j])
  }

  /** The position of the row with key `k`, or -1. */
  function FindRow<R, K(==)>(rows: seq<R>, k: K, key: R -> K): (i: int)
    ensures -1 <= i < |rows|
    ensures 0 <= i ==> key(rows[i]) == k
    ensures i < 0 <==> forall j :: 0 <= j < |rows| ==> key(rows[j]) != k
    decreases |rows|
  {
    if rows == [] then -1
    else
      var i := FindRow(rows[..|rows| - 1], k, key);
      if 0 <= i then i
      else if key(rows[|rows| - 1]) == k then |rows| - 1
      else -1
  }

  /** The row with key `k`, if there is one. */
  function Lookup<R, K(==)>(rows: seq<R>, k: K, key: R -> K): (r: Option<R>)
    ensures r.Some? ==> r.value in rows && key(r.value) == k
    ensures r.None? <==> forall j :: 0 <= j < |rows| ==> key(rows[j]) != k
  {
    var i := FindRow(rows, k, key);
    if i < 0 then None else Some(rows[i])
  }

  /** `INSERT ... ON CONFLICT (key) DO UPDATE`: a new key appends the row,
      an existing key replaces that row by `merge(old, new)`, which keeps
      the key. */
  function Upsert<R(!new), K(==)>(rows: seq<R>, row: R, key: R -> K, merge: (R, R) -> R): (r: seq<R>)
    requires forall a, b :: key(merge(a, b)) == key(b)
    ensures |r| == |rows| || |r| == |rows| + 1
  {
    var i := FindRow(rows, key(row), key);
    if i < 0 then rows + [row] else rows[i := merge(rows[i], row)]
  }

  /** Row `i` is the only one with its key. */
  lemma UniqueFind<R, K>(rows: seq<R>, key: R -> K, i: nat)
    requires KeysUnique(rows, key) && i < |rows|
    ensures FindRow(rows, key(rows[i]), key) == i
  {
    var j := FindRow(rows, key(rows[i]), key);
    assert j >= 0;
  }

  /** After an upsert the key is found with the merged (or new) row, every
      other key is found as before, and keys stay unique. */
  lemma UpsertSpec<R(!new), K>(rows: seq<R>, row: R, key: R -> K, merge: (R, R) -> R, k: K)
    requires forall a, b :: key(merge(a, b)) == key(b)
    requires KeysUnique(rows, key)
    ensures KeysUnique(Upsert(rows, row, key, merge), key)
    ensures var before := Lookup(rows, key(row), key);
      Lookup(Upsert(rows, row, key, merge), key(row), key)
        == Some(if before.Some? then merge(before.value, row) else row)
    ensures k != key(row) ==> Lookup(Upsert(rows, row, key, merge), k, key) == Lookup(rows, k, key)
  {
    var r := Upsert(rows, row, key, merge);
    var i := FindRow(rows, key(row), key);
    if i < 0 {
      assert r == rows + [row];
      assert KeysUnique(r, key);
      UniqueFind(r, key, |r| - 1);
      if k != key(row) {
        var j := FindRow(rows, k, key);
        if j >= 0 {
          UniqueFind(rows, key, j);
          UniqueFind(r, key, j);
        }
      }
    } else {
      assert key(r[i]) == key(row);
      assert KeysUnique(r, key);
      UniqueFind(r, key, i);
      if k != key(row) {
        var j := FindRow(rows, k, key);
        if j >= 0 {
          UniqueFind(rows, key, j);
          UniqueFind(r, key, j);
        }
      }
    }
  }

  /** The error of any query over a lost connection. */
  const ErrQuery := Foreign("gorm")

  /** The database one connection string reaches: its six tables. */
  class Database {
    var objects: seq<ObjectRow>
    var references: seq<ReferenceRow>
    var configs: seq<ConfigRow>
    var shallows: seq<ShallowRow>
    var indexes: seq<IndexRow>
    var codeEmbeddings: seq<CodeEmbeddingRow>
    /** The connection is lost: every query fails. */
    var offline: bool

    predicate Valid()
      reads this
    {
      KeysUnique(objects, ObjectKey) && KeysUnique(references, ReferenceKey)
      && KeysUnique(configs, ConfigKey) && KeysUnique(shallows, ShallowKey)
      && KeysUnique(indexes, IndexKey) && KeysUnique(codeEmbeddings, CodeEmbeddingKey)
    }

    /** A freshly opened and migrated database with empty tables. */
    constructor ()
      ensures Valid()
      ensures objects == [] && references == [] && configs == [] && shallows == []
      ensures indexes == [] && codeEmbeddings == [] && !offline
    {
      objects, references, configs, shallows, indexes, codeEmbeddings := [], [], [], [], [], [];
      offline := false;
    }
  }

  /** The package-level cache of `GetPostgresClient`, one connection per
      connection string. */
  class ClientCache {
    var instances: map<string, Database>

    constructor ()
      ensures instances == map[]
    {
      instances := map[];
    }

    /** `GetPostgresClient`.  `openResult` and `setupResult` are the outcomes of
        `gorm.Open` and of creating the vector extension; a connection is
        kept only when both succeed.  The migration's result is ignored. */
    method GetPostgresClient(dsn: string, openResult: Outcome, setupResult: Outcome) returns (r: Result<Database>)
      modifies this
      ensures dsn in old(instances) ==> r == Ok(old(instances)[dsn]) && instances == old(instances)
      ensures dsn !in old(instances) && openResult.Fail? ==> r == Err(openResult.error) && instances == old(instances)
      ensures dsn !in old(instances) && openResult.Pass? && setupResult.Fail? ==>
        r == Err(setupResult.error) && instances == old(instances)
      ensures dsn !in old(instances) && openResult.Pass? && setupResult.Pass? ==>
        r.Ok? && fresh(r.value) && r.value.Valid() && instances == old(instances)[dsn := r.value]
      ensures forall d :: d in old(instances) ==> d in instances && instances[d] == old(instances)[d]
    {
      if dsn in instances {
        return Ok(instances[dsn]);
      }
      if openResult.Fail? {
        return Err(openResult.error);
      }
      var db := new Database();
      if setupResult.Fail? {
        return Err(setupResult.error);
      }
      instances := instances[dsn := db];
      return Ok(db);
    }
  }
}
