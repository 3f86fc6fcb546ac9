/** The Postgres storer of one repository: the five stores over one
    database, all keyed by the same namespace prefix. */
module PostgresStorage {
  import opened Wrappers
  import opened GitPlumbing
  import opened Database
  import PostgresObject
  import PostgresReference
  import PostgresStores

  class Storage {
    const db: Database
    const namespacePrefix: string
    const objects: PostgresObject.ObjectStorage
    const references: PostgresReference.ReferenceStorage
    const config: PostgresStores.ConfigStorage
    const shallow: PostgresStores.ShallowStorage
    const index: PostgresStores.IndexStorage

    /** Every store works on `db` under `prefix`. */
    predicate StoresUse(db: Database, prefix: string)
    {
      this.db == db && namespacePrefix == prefix
      && objects.db == db && references.db == db && config.db == db && shallow.db == db && index.db == db
      && objects.namespacePrefix == prefix && references.namespacePrefix == prefix
      && config.namespacePrefix == prefix && shallow.namespacePrefix == prefix
      && index.namespacePrefix == prefix
    }

    /** `NewStorage`: unlike the Redis one, it passes the namespace to
        every store. */
    constructor(db: Database, ns: string)
      ensures StoresUse(db, ns)
    {
      this.db := db;
      namespacePrefix := ns;
      objects := new PostgresObject.ObjectStorage(db, ns);
      references := new PostgresReference.ReferenceStorage(db, ns);
      config := new PostgresStores.ConfigStorage(db, ns);
      shallow := new PostgresStores.ShallowStorage(db, ns);
      index := new PostgresStores.IndexStorage(db, ns);
    }

    /** `PackRefs` does nothing and succeeds. */
    method PackRefs() returns (r: Outcome)
      ensures r == Pass
    {
      r := Pass;
    }

    /** `CountLooseRefs`, `Module` and `RemoveReference` panic. */
    method CountLooseRefs() returns (r: Result<int>)
      ensures r == Err(Panic("unimplemented"))
    {
      r := Err(Panic("unimplemented"));
    }

    method Module(name: string) returns (r: Result<Storage>)
      ensures r == Err(Panic("unimplemented"))
    {
      r := Err(Panic("unimplemented"));
    }

    method RemoveReference(name: string) returns (r: Outcome)
      ensures r == Fail(Panic("unimplemented"))
    {
      r := Fail(Panic("unimplemented"));
    }

    /** `AddAlternate` is not supported. */
    method AddAlternate(remote: string) returns (r: Outcome)
      ensures r == Fail(Message("not supported"))
    {
      r := Fail(Message("not supported"));
    }
  }

  /** Storages made for two different namespaces keep their configs apart:
      each reads back the config it wrote. */
  lemma NamespacesKeepConfig(rows: seq<ConfigRow>, a: string, b: string, cfgA: Config, cfgB: Config)
    requires KeysUnique(rows, ConfigKey) && a != b
    ensures var written := PostgresStores.SetConfigSpec(false, PostgresStores.SetConfigSpec(false, rows, a, cfgA).1, b, cfgB).1;
      PostgresStores.ConfigSpec(false, written, a) == Ok(cfgA) && PostgresStores.ConfigSpec(false, written, b) == Ok(cfgB)
  {
    PostgresStores.ConfigRoundTrip(rows, a, cfgA, b);
    var first := PostgresStores.SetConfigSpec(false, rows, a, cfgA).1;
    PostgresStores.ConfigRoundTrip(first, b, cfgB, a);
  }
}
