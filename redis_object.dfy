/** The object store of the Redis backend: the bytes of an object live under
    the key (prefix, "object", "<type>:<hash>"); lookups by hash alone scan
    for the pattern "*:<hash>". */
module RedisObject {
  import opened Wrappers
  import opened Strings
  import opened GitPlumbing
  import opened RedisClient
  import opened RedisIter

  const ObjectKind := "object"

  /** `withNamespace(prefix, "object", fmt.Sprintf("%s:%s", t, h))`. */
  function ObjectKey(prefix: string, t: ObjectType, h: Hash): Key
  {
    Ns(prefix, ObjectKind, TypeName(t) + ":" + h)
  }

  /** The pattern "*:<hash>". */
  function HashPattern(prefix: string, h: Hash): Pattern
  {
    Pattern(prefix, ObjectKind, "", ":" + h)
  }

  /** The pattern "<type>:*". */
  function TypePattern(prefix: string, t: ObjectType): Pattern
  {
    Pattern(prefix, ObjectKind, TypeName(t) + ":", "")
  }

  /** The pattern "*". */
  function AllObjects(prefix: string): Pattern
  {
    Pattern(prefix, ObjectKind, "", "")
  }

  /** The key of an object matches the scans for its hash and its type. */
  lemma ObjectKeyMatches(prefix: string, t: ObjectType, h: Hash)
    ensures Matches(ObjectKey(prefix, t, h), HashPattern(prefix, h))
    ensures Matches(ObjectKey(prefix, t, h), TypePattern(prefix, t))
    ensures Matches(ObjectKey(prefix, t, h), AllObjects(prefix))
  {
    var name := TypeName(t) + ":" + h;
    assert name[|name| - |":" + h|..] == ":" + h;
    assert name[..|TypeName(t) + ":"|] == TypeName(t) + ":";
  }

  /** `SetEncodedObject`: the object's bytes under its type and hash; the
      hash `obj.Hash()` computes is an input.  A failed write gives the zero
      hash. */
  function SetEncodedObjectSpec(db: Db, prefix: string, obj: MemoryObject, h: Hash): (r: (Hash, Outcome, Db))
    ensures r.1.Pass? <==> !db.offline
    ensures r.1.Pass? ==> r.0 == h && r.2 == db.Set(ObjectKey(prefix, obj.typ, h), Raw(obj.data)).1
    ensures r.1.Fail? ==> r == (ZeroHash, Fail(ErrConnection), db)
  {
    var (o, after) := db.Set(ObjectKey(prefix, obj.typ, h), Raw(obj.data));
    if o.Fail? then (ZeroHash, o, db) else (h, Pass, after)
  }

  /** The object `EncodedObject` builds from stored bytes: the requested
      type and the length of the bytes as its size. */
  function DecodeObject(t: ObjectType, data: Payload): (r: Result<MemoryObject>)
    ensures r.Ok? <==> data.Raw?
    ensures r.Ok? ==> r.value == MemoryObject(t, |data.bytes|, data.bytes)
  {
    match Bytes(data)
    case Err(e) => Err(e)
    case Ok(b) => Ok(MemoryObject(t, |b|, b))
  }

  /** `EncodedObject` for one type: a missing key is `ErrObjectNotFound`. */
  function TypedObjectSpec(db: Db, prefix: string, t: ObjectType, h: Hash): (r: Result<MemoryObject>)
    ensures !db.offline && ObjectKey(prefix, t, h) !in db.data ==> r == Err(ObjectNotFound)
    ensures r.Ok? ==> r.value.typ == t && r.value.size == |r.value.data|
  {
    match db.Get(ObjectKey(prefix, t, h))
    case Err(e) => if e == ErrNil then Err(ObjectNotFound) else Err(e)
    case Ok(data) => DecodeObject(t, data)
  }

  /** The order in which `EncodedObject` tries the types for `AnyObject`. */
  const ProbeOrder := [CommitObject, TreeObject, BlobObject, TagObject, OfsDeltaObject, RefDeltaObject]

  /** The first of `types` under which the hash is found; every error is
      passed over. */
  function ProbeSpec(db: Db, prefix: string, h: Hash, types: seq<ObjectType>): Result<MemoryObject>
  {
    if types == [] then Err(ObjectNotFound)
    else
      var found := TypedObjectSpec(db, prefix, types[0], h);
      if found.Ok? then found else ProbeSpec(db, prefix, h, types[1..])
  }

  /** `EncodedObject`. */
  function EncodedObjectSpec(db: Db, prefix: string, t: ObjectType, h: Hash): Result<MemoryObject>
  {
    if t == AnyObject then ProbeSpec(db, prefix, h, ProbeOrder) else TypedObjectSpec(db, prefix, t, h)
  }

  /** A probe finds the object of the first type that has one, and
      `ErrObjectNotFound` when none has. */
  lemma {:induction false} ProbeFindsFirst(db: Db, prefix: string, h: Hash, types: seq<ObjectType>)
    ensures var r := ProbeSpec(db, prefix, h, types);
      (r.Ok? <==> exists i :: 0 <= i < |types| && TypedObjectSpec(db, prefix, types[i], h).Ok?)
      && (r.Err? ==> r.error == ObjectNotFound)
      && (r.Ok? ==> exists i :: 0 <= i < |types| && r == TypedObjectSpec(db, prefix, types[i], h)
                     && forall j :: 0 <= j < i ==> TypedObjectSpec(db, prefix, types[j], h).Err?)
  {
    if types != [] {
      ProbeFindsFirst(db, prefix, h, types[1..]);
      var r := ProbeSpec(db, prefix, h, types);
      if TypedObjectSpec(db, prefix, types[0], h).Err? {
        if exists i :: 0 <= i < |types| && TypedObjectSpec(db, prefix, types[i], h).Ok? {
          var i :| 0 <= i < |types| && TypedObjectSpec(db, prefix, types[i], h).Ok?;
          assert types[1..][i - 1] == types[i];
        }
        if r.Ok? {
          var i :| 0 <= i < |types[1..]| && r == TypedObjectSpec(db, prefix, types[1..][i], h)
                   && forall j :: 0 <= j < i ==> TypedObjectSpec(db, prefix, types[1..][j], h).Err?;
          assert forall j :: 0 <= j < i + 1 ==> TypedObjectSpec(db, prefix, types[j], h).Err? by {
            forall j | 0 <= j < i + 1 ensures TypedObjectSpec(db, prefix, types[j], h).Err? {
              if j > 0 { assert types[j] == types[1..][j - 1]; }
            }
          }
        }
      }
    }
  }

  /** A written object reads back with its type, bytes and their length, and
      an `AnyObject` lookup finds it unless a type probed before it holds an
      object with the same hash. */
  lemma SetThenEncodedObject(db: Db, prefix: string, obj: MemoryObject, h: Hash)
    requires !db.offline && IsStorable(obj.typ)
    ensures var (_, r, after) := SetEncodedObjectSpec(db, prefix, obj, h);
      var read := MemoryObject(obj.typ, |obj.data|, obj.data);
      r == Pass && EncodedObjectSpec(after, prefix, obj.typ, h) == Ok(read)
      && ((forall t :: t in ProbeOrder && t != obj.typ ==> ObjectKey(prefix, t, h) !in db.data) ==>
            EncodedObjectSpec(after, prefix, AnyObject, h) == Ok(read))
  {
    var after := SetEncodedObjectSpec(db, prefix, obj, h).2;
    if forall t :: t in ProbeOrder && t != obj.typ ==> ObjectKey(prefix, t, h) !in db.data {
      ProbeFindsFirst(after, prefix, h, ProbeOrder);
      forall t | t in ProbeOrder && t != obj.typ
        ensures TypedObjectSpec(after, prefix, t, h) == Err(ObjectNotFound)
      {
        TypeNameKeysDiffer(t, obj.typ, h);
      }
      assert obj.typ in ProbeOrder;
    }
  }

  /** Different types give different keys for one hash. */
  lemma TypeNameKeysDiffer(s: ObjectType, t: ObjectType, h: Hash)
    requires s != t
    ensures TypeName(s) + ":" + h != TypeName(t) + ":" + h
  {
    var a := TypeName(s) + ":" + h;
    var b := TypeName(t) + ":" + h;
    if a == b {
      assert |TypeName(s)| == |TypeName(t)|;
      assert a[..|TypeName(s)|] == TypeName(s) && b[..|TypeName(t)|] == TypeName(t);
      TypeNameInjective(s, t);
    }
  }

  /** A scan of the whole keyspace in two parts. */
  lemma {:induction false} FlattenConcat(a: seq<seq<Key>>, b: seq<seq<Key>>)
    ensures Flatten(a + b) == Flatten(a) + Flatten(b)
    decreases |b|
  {
    if b == [] {
      assert a + b == a;
    } else {
      var n := |b| - 1;
      FlattenConcat(a, b[..n]);
      assert (a + b)[..|a + b| - 1] == a + b[..n];
    }
  }

  lemma ScanAllSplit(db: Db, p: Pattern, cursor: nat)
    requires cursor <= |db.layout|
    ensures db.ScanAll(p) == ScannedBefore(db, p, cursor) + Filter(Flatten(db.layout[cursor..]), p, db.data)
  {
    assert db.layout == db.layout[..cursor] + db.layout[cursor..];
    FlattenConcat(db.layout[..cursor], db.layout[cursor..]);
    FilterAppend(Flatten(db.layout[..cursor]), Flatten(db.layout[cursor..]), p, db.data);
  }

  /** Where the batch at `cursor` sits in a whole SCAN. */
  lemma BatchPosition(db: Db, p: Pattern, cursor: nat)
    requires cursor < |db.layout|
    ensures var before := ScannedBefore(db, p, cursor);
      var batch := Filter(db.layout[cursor], p, db.data);
      ScannedBefore(db, p, cursor + 1) == before + batch
      && |before| + |batch| <= |db.ScanAll(p)|
      && (forall j :: 0 <= j < |batch| ==> db.ScanAll(p)[|before| + j] == batch[j])
      && (cursor + 1 == |db.layout| ==> db.ScanAll(p) == before + batch)
  {
    ScannedStep(db, p, cursor);
    ScanAllSplit(db, p, cursor + 1);
    if cursor + 1 == |db.layout| {
      assert db.layout[cursor + 1..] == [];
    }
  }

  /** `HasEncodedObject`: some key matches "*:<hash>". */
  function HasEncodedObjectSpec(db: Db, prefix: string, h: Hash): Outcome
  {
    if db.offline then Fail(ErrConnection)
    else if db.ScanAll(HashPattern(prefix, h)) != [] then Pass
    else Fail(ObjectNotFound)
  }

  /** Over a valid layout, an object is found exactly when some key of its
      hash is stored. */
  lemma HasEncodedObjectIffStored(db: Db, prefix: string, h: Hash)
    requires !db.offline && db.ValidLayout()
    ensures HasEncodedObjectSpec(db, prefix, h).Pass? <==> exists k :: k in db.data && Matches(k, HashPattern(prefix, h))
  {
    ScanAllIsMatchingKeys(db, HashPattern(prefix, h));
    if exists k :: k in db.data && Matches(k, HashPattern(prefix, h)) {
      var k :| k in db.data && Matches(k, HashPattern(prefix, h));
      assert k in db.MatchingKeys(HashPattern(prefix, h));
    }
  }

  /** A written object is found by its hash. */
  lemma SetThenHasEncodedObject(db: Db, prefix: string, obj: MemoryObject, h: Hash)
    requires !db.offline && db.ValidLayout()
    ensures var after := SetEncodedObjectSpec(db, prefix, obj, h).2;
      HasEncodedObjectSpec(after, prefix, h) == Pass
  {
    var after := SetEncodedObjectSpec(db, prefix, obj, h).2;
    SetKeepsLayoutValid(db, ObjectKey(prefix, obj.typ, h), Raw(obj.data));
    ObjectKeyMatches(prefix, obj.typ, h);
    HasEncodedObjectIffStored(after, prefix, h);
  }

  /** `EncodedObjectSize`: the stored length of the first key the scan for
      the hash returns. */
  function EncodedObjectSizeSpec(db: Db, prefix: string, h: Hash): Result<nat>
  {
    if db.offline then Err(ErrConnection)
    else
      var found := db.ScanAll(HashPattern(prefix, h));
      if found == [] then Err(ObjectNotFound) else db.StrLen(found[0])
  }

  /** When the object is the only one with its hash, its size is the length
      of its bytes. */
  lemma SizeOfOnlyObject(db: Db, prefix: string, obj: MemoryObject, h: Hash)
    requires !db.offline && db.ValidLayout()
    requires forall k :: k in db.data && Matches(k, HashPattern(prefix, h)) ==> k == ObjectKey(prefix, obj.typ, h)
    ensures var after := SetEncodedObjectSpec(db, prefix, obj, h).2;
      EncodedObjectSizeSpec(after, prefix, h) == Ok(|obj.data|)
  {
    var after := SetEncodedObjectSpec(db, prefix, obj, h).2;
    var key := ObjectKey(prefix, obj.typ, h);
    SetKeepsLayoutValid(db, key, Raw(obj.data));
    ObjectKeyMatches(prefix, obj.typ, h);
    ScanAllIsMatchingKeys(after, HashPattern(prefix, h));
    assert key in after.MatchingKeys(HashPattern(prefix, h));
    var found := after.ScanAll(HashPattern(prefix, h));
    assert found != [];
    assert found[0] in after.MatchingKeys(HashPattern(prefix, h));
  }

  /** The hash `ForEachObjectHash` reads from a key: the text after its last
      ':'. */
  function HashOf(k: Key): Hash
  {
    var text := if k.Ns? then k.name else k.text;
    NewHash(text[LastIndexOf(text, ':') + 1..])
  }

  lemma HashOfObjectKey(prefix: string, t: ObjectType, h: Hash)
    ensures HashOf(ObjectKey(prefix, t, h)) == h
  {
    var name := TypeName(t) + ":" + h;
    var n := |TypeName(t)|;
    assert name[n] == ':';
    assert name[n + 1..] == h;
    assert ':' !in h by {
      forall k | 0 <= k < |h| ensures h[k] != ':' {
        assert IsLowerHex(h[k]);
      }
    }
    LastIndexOfIs(name, ':', n);
    NewHashOfString(h);
  }

  /** The outcome of calling `fun` on the hashes of `keys` in order until
      the first error. */
  function FirstFailure(fun: Hash -> Outcome, keys: seq<Key>): Outcome
  {
    if keys == [] then Pass
    else
      var o := fun(HashOf(keys[0]));
      if o.Fail? then o else FirstFailure(fun, keys[1..])
  }

  /** Every hash is accepted exactly when the walk passes, and a failure is
      the first rejection. */
  lemma {:induction false} FirstFailureMeaning(fun: Hash -> Outcome, keys: seq<Key>)
    ensures var r := FirstFailure(fun, keys);
      (r.Pass? <==> forall i :: 0 <= i < |keys| ==> fun(HashOf(keys[i])).Pass?)
      && (r.Fail? ==> exists i :: 0 <= i < |keys| && r == fun(HashOf(keys[i]))
                                && forall j :: 0 <= j < i ==> fun(HashOf(keys[j])).Pass?)
  {
    if keys != [] && fun(HashOf(keys[0])).Pass? {
      FirstFailureMeaning(fun, keys[1..]);
      var r := FirstFailure(fun, keys[1..]);
      assert forall i :: 0 < i < |keys| ==> keys[i] == keys[1..][i - 1];
      if r.Fail? {
        var i :| 0 <= i < |keys[1..]| && r == fun(HashOf(keys[1..][i]))
                 && forall j :: 0 <= j < i ==> fun(HashOf(keys[1..][j])).Pass?;
        assert r == fun(HashOf(keys[i + 1]));
        forall j | 0 <= j < i + 1 ensures fun(HashOf(keys[j])).Pass? {
          if j > 0 { assert keys[j] == keys[1..][j - 1]; }
        }
      }
    }
  }

  /** The walk over two parts stops in the first part if it fails there. */
  lemma {:induction false} FirstFailureAppend(fun: Hash -> Outcome, a: seq<Key>, b: seq<Key>)
    ensures FirstFailure(fun, a + b) == if FirstFailure(fun, a).Fail? then FirstFailure(fun, a) else FirstFailure(fun, b)
  {
    if a == [] {
      assert a + b == b;
    } else {
      assert (a + b)[0] == a[0] && (a + b)[1..] == a[1..] + b;
      FirstFailureAppend(fun, a[1..], b);
    }
  }

  /** `ForEachObjectHash`: `fun` on the hash of each object key a whole SCAN
      returns, up to the first error, which is returned as it is, including
      `storer.ErrStop`. */
  function ForEachObjectHashSpec(db: Db, prefix: string, fun: Hash -> Outcome): Outcome
  {
    if db.offline then Fail(ErrConnection) else FirstFailure(fun, db.ScanAll(AllObjects(prefix)))
  }

  /** Over a valid layout, `ForEachObjectHash` succeeds exactly when `fun`
      accepts the hash of every stored object key. */
  lemma ForEachObjectHashCoversStored(db: Db, prefix: string, fun: Hash -> Outcome)
    requires !db.offline && db.ValidLayout()
    ensures ForEachObjectHashSpec(db, prefix, fun).Pass? <==>
      forall k :: k in db.data && Matches(k, AllObjects(prefix)) ==> fun(HashOf(k)).Pass?
  {
    var all := db.ScanAll(AllObjects(prefix));
    ScanAllIsMatchingKeys(db, AllObjects(prefix));
    FirstFailureMeaning(fun, all);
    if ForEachObjectHashSpec(db, prefix, fun).Pass? {
      forall k | k in db.data && Matches(k, AllObjects(prefix)) ensures fun(HashOf(k)).Pass? {
        assert k in db.MatchingKeys(AllObjects(prefix));
        var i :| 0 <= i < |all| && all[i] == k;
      }
    }
  }

  /** `IterEncodedObjects(AnyObject)` scans "any:*", which no object written
      with a storable type matches. */
  lemma AnyTypeIterationMatchesNoStoredObject(prefix: string, t: ObjectType, h: Hash)
    requires IsStorable(t)
    ensures !Matches(ObjectKey(prefix, t, h), TypePattern(prefix, AnyObject))
  {
    var name := TypeName(t) + ":" + h;
    assert name[0] == TypeName(t)[0];
  }

  class ObjectStorage {
    const client: Client
    const namespacePrefix: string

    constructor(client: Client, namespacePrefix: string)
      ensures this.client == client && this.namespacePrefix == namespacePrefix
    {
      this.client := client;
      this.namespacePrefix := namespacePrefix;
    }

    method SetEncodedObject(obj: MemoryObject, h: Hash) returns (hash: Hash, r: Outcome)
      modifies client
      ensures (hash, r, client.db) == SetEncodedObjectSpec(old(client.db), namespacePrefix, obj, h)
    {
      r := client.Set(ObjectKey(namespacePrefix, obj.typ, h), Raw(obj.data));
      if r.Fail? {
        return ZeroHash, r;
      }
      return h, Pass;
    }

    method EncodedObject(t: ObjectType, h: Hash) returns (r: Result<MemoryObject>)
      ensures r == EncodedObjectSpec(client.db, namespacePrefix, t, h)
      decreases if t == AnyObject then 1 else 0
    {
      if t == AnyObject {
        var i := 0;
        while i < |ProbeOrder|
          invariant 0 <= i <= |ProbeOrder|
          invariant ProbeSpec(client.db, namespacePrefix, h, ProbeOrder) == ProbeSpec(client.db, namespacePrefix, h, ProbeOrder[i..])
        {
          var obj := EncodedObject(ProbeOrder[i], h);
          if obj.Ok? {
            return obj;
          }
          assert ProbeOrder[i..][1..] == ProbeOrder[i + 1..];
          i := i + 1;
        }
        return Err(ObjectNotFound);
      }
      var data := client.Get(ObjectKey(namespacePrefix, t, h));
      if data.Err? {
        if data.error == ErrNil {
          return Err(ObjectNotFound);
        }
        return Err(data.error);
      }
      r := DecodeObject(t, data.value);
    }

    method EncodedObjectSize(h: Hash) returns (r: Result<nat>)
      ensures r == EncodedObjectSizeSpec(client.db, namespacePrefix, h)
    {
      var p := HashPattern(namespacePrefix, h);
      var cursor: nat := 0;
      while true
        invariant cursor <= |client.db.layout| && (cursor == 0 || cursor < |client.db.layout|)
        invariant ScannedBefore(client.db, p, cursor) == []
        decreases |client.db.layout| - cursor
      {
        var scanned := client.Scan(cursor, p);
        if scanned.Err? {
          return Err(scanned.error);
        }
        var (keys, next) := scanned.value;
        if cursor < |client.db.layout| {
          ScannedStep(client.db, p, cursor);
          ScanAllSplit(client.db, p, cursor + 1);
        }
        if |keys| > 0 {
          assert client.db.ScanAll(p)[0] == keys[0];
          r := client.StrLen(keys[0]);
          return;
        }
        if next == 0 {
          ScanAllSplit(client.db, p, if cursor < |client.db.layout| then cursor + 1 else cursor);
          return Err(ObjectNotFound);
        }
        cursor := next;
      }
    }

    method HasEncodedObject(h: Hash) returns (r: Outcome)
      ensures r == HasEncodedObjectSpec(client.db, namespacePrefix, h)
    {
      var p := HashPattern(namespacePrefix, h);
      var cursor: nat := 0;
      while true
        invariant cursor <= |client.db.layout| && (cursor == 0 || cursor < |client.db.layout|)
        invariant ScannedBefore(client.db, p, cursor) == []
        decreases |client.db.layout| - cursor
      {
        var scanned := client.Scan(cursor, p);
        if scanned.Err? {
          return Fail(scanned.error);
        }
        var (keys, next) := scanned.value;
        if cursor < |client.db.layout| {
          ScannedStep(client.db, p, cursor);
          ScanAllSplit(client.db, p, cursor + 1);
        }
        if |keys| > 0 {
          return Pass;
        }
        if next == 0 {
          ScanAllSplit(client.db, p, if cursor < |client.db.layout| then cursor + 1 else cursor);
          return Fail(ObjectNotFound);
        }
        cursor := next;
      }
    }

    /** The calls of `ForEachObjectHash` on the keys of one batch. */
    method CallEach(fun: Hash -> Outcome, keys: seq<Key>) returns (r: Outcome)
      ensures r == FirstFailure(fun, keys)
    {
      for j := 0 to |keys|
        invariant FirstFailure(fun, keys) == FirstFailure(fun, keys[j..])
      {
        assert keys[j..][1..] == keys[j + 1..];
        var o := fun(HashOf(keys[j]));
        if o.Fail? {
          return o;
        }
      }
      assert keys[|keys|..] == [];
      return Pass;
    }

    method ForEachObjectHash(fun: Hash -> Outcome) returns (r: Outcome)
      ensures r == ForEachObjectHashSpec(client.db, namespacePrefix, fun)
    {
      var p := AllObjects(namespacePrefix);
      var cursor: nat := 0;
      while true
        invariant cursor <= |client.db.layout| && (cursor == 0 || cursor < |client.db.layout|)
        invariant FirstFailure(fun, ScannedBefore(client.db, p, cursor)) == Pass
        decreases |client.db.layout| - cursor
      {
        var scanned := client.Scan(cursor, p);
        if scanned.Err? {
          return Fail(scanned.error);
        }
        var (keys, next) := scanned.value;
        if cursor == |client.db.layout| {
          assert client.db.ScanAll(p) == [];
          return Pass;
        }
        ScannedStep(client.db, p, cursor);
        ScanAllSplit(client.db, p, cursor + 1);
        FirstFailureAppend(fun, ScannedBefore(client.db, p, cursor), keys);
        FirstFailureAppend(fun, ScannedBefore(client.db, p, cursor + 1), Filter(Flatten(client.db.layout[cursor + 1..]), p, client.db.data));
        r := CallEach(fun, keys);
        if r.Fail? {
          return;
        }
        if next == 0 {
          assert client.db.layout[cursor + 1..] == [];
          return Pass;
        }
        cursor := next;
      }
    }

    method IterEncodedObjects(t: ObjectType) returns (iter: ScanIter<MemoryObject>)
      ensures fresh(iter) && iter.client == client && iter.pattern == TypePattern(namespacePrefix, t)
      ensures forall data :: iter.decode(data) == DecodeObject(t, data)
      ensures iter.State() == Fetch(client.db, TypePattern(namespacePrefix, t), Initial)
    {
      iter := new ScanIter(client, TypePattern(namespacePrefix, t), (data: Payload) => DecodeObject(t, data));
    }
  }
}
