/** The object store of the Postgres backend: one row per (hash, url) in the
    objects table, holding the type name, the bytes and their length; url
    is the store's namespace prefix. */
module PostgresObject {
  import opened Wrappers
  import opened GitPlumbing
  import opened Database
  import opened PostgresPaging

  /** The row `SetEncodedObject` writes for an object whose hash is `h`. */
  function ObjRow(prefix: string, obj: MemoryObject, h: Hash): ObjectRow
  {
    ObjectRow(h, TypeName(obj.typ), obj.data, |obj.data|, prefix)
  }

  /** The conflict rule: type, blob and size are overwritten; hash and url
      are the key and stay. */
  function Overwrite(current: ObjectRow, incoming: ObjectRow): ObjectRow
  {
    incoming
  }

  /** The primary key of the row for hash `h` in namespace `prefix`. */
  function RowKey(prefix: string, h: Hash): (string, string)
  {
    (h, prefix)
  }

  /** `SetEncodedObject`: an upsert on (hash, url).  The hash `obj.Hash()`
      computes is the input `h`; it is returned whether or not the write
      succeeds. */
  function SetEncodedObjectSpec(offline: bool, rows: seq<ObjectRow>, prefix: string, obj: MemoryObject, h: Hash)
    : (Hash, Outcome, seq<ObjectRow>)
  {
    if offline then (h, Fail(ErrQuery), rows)
    else (h, Pass, Upsert(rows, ObjRow(prefix, obj, h), ObjectKey, Overwrite))
  }

  /** The object `EncodedObject` builds from a row: the parsed type and the
      blob.  `MemoryObject.Write` sets the size to the length of what it
      holds, so the size column is replaced by the blob's length. */
  function RowToObject(row: ObjectRow): (r: Result<MemoryObject>)
    ensures r.Ok? <==> ParseObjectType(row.typ).Ok?
    ensures r.Ok? ==> TypeName(r.value.typ) == row.typ && r.value.data == row.blob && r.value.size == |row.blob|
    ensures r.Err? ==> r == Err(InvalidObjectType)
  {
    match ParseObjectType(row.typ)
    case Err(e) => Err(e)
    case Ok(t) => Ok(MemoryObject(t, |row.blob|, row.blob))
  }

  /** `EncodedObject`: the row for (h, prefix), which for a given type must
      also carry that type name; no such row is `ErrObjectNotFound`.  The
      key is the primary key, so at most one row qualifies. */
  function EncodedObjectSpec(offline: bool, rows: seq<ObjectRow>, prefix: string, t: ObjectType, h: Hash)
    : Result<MemoryObject>
  {
    if offline then Err(ErrQuery)
    else match Lookup(rows, RowKey(prefix, h), ObjectKey)
      case None => Err(ObjectNotFound)
      case Some(row) =>
        if t != AnyObject && row.typ != TypeName(t) then Err(ObjectNotFound) else RowToObject(row)
  }

  /** `SELECT count(*)` over the rows with key `k`. */
  function CountRows(rows: seq<ObjectRow>, k: (string, string)): (n: nat)
    ensures n <= |rows|
    ensures n == 0 <==> forall j :: 0 <= j < |rows| ==> ObjectKey(rows[j]) != k
  {
    if rows == [] then 0
    else
      assert forall j :: 1 <= j < |rows| ==> rows[j] == rows[1..][j - 1];
      (if ObjectKey(rows[0]) == k then 1 else 0) + CountRows(rows[1..], k)
  }

  /** `HasEncodedObject`: `ErrObjectNotFound` when the count for (h, prefix)
      is 0. */
  function HasEncodedObjectSpec(offline: bool, rows: seq<ObjectRow>, prefix: string, h: Hash): Outcome
  {
    if offline then Fail(ErrQuery)
    else if CountRows(rows, RowKey(prefix, h)) == 0 then Fail(ObjectNotFound)
    else Pass
  }

  /** `EncodedObjectSize` as written: a `Scan` into an integer finds no row
      without an error, so a missing object has size 0. */
  function EncodedObjectSizeSpec(offline: bool, rows: seq<ObjectRow>, prefix: string, h: Hash): Result<int>
  {
    if offline then Err(ErrQuery)
    else match Lookup(rows, RowKey(prefix, h), ObjectKey)
      case None => Ok(0)
      case Some(row) => Ok(row.size)
  }

  /** `EncodedObjectSize` as intended: a missing object is
      `ErrObjectNotFound`, as in every other lookup of this store. */
  function EncodedObjectSizeIntendedSpec(offline: bool, rows: seq<ObjectRow>, prefix: string, h: Hash): Result<int>
  {
    if offline then Err(ErrQuery)
    else match Lookup(rows, RowKey(prefix, h), ObjectKey)
      case None => Err(ObjectNotFound)
      case Some(row) => Ok(row.size)
  }

  /** A write returns the object's hash, also when it fails, and a failed
      write leaves the table as it was. */
  lemma SetEncodedObjectOutcomes(offline: bool, rows: seq<ObjectRow>, prefix: string, obj: MemoryObject, h: Hash)
    ensures var (hash, r, after) := SetEncodedObjectSpec(offline, rows, prefix, obj, h);
      hash == h && (r.Pass? <==> !offline) && (r.Fail? ==> r == Fail(ErrQuery) && after == rows)
  {
  }

  /** After storing an object of a storable type, reading it back by its
      type or by `AnyObject` gives its bytes with that type, reading it by any
      other type finds nothing, and other keys read as before.  One row holds
      one hash, so a second write under another type replaces the first. */
  lemma SetThenEncodedObject(rows: seq<ObjectRow>, prefix: string, obj: MemoryObject, h: Hash,
                             t: ObjectType, k: Hash)
    requires KeysUnique(rows, ObjectKey) && IsStorable(obj.typ)
    ensures var (_, r, after) := SetEncodedObjectSpec(false, rows, prefix, obj, h);
      var read := MemoryObject(obj.typ, |obj.data|, obj.data);
      r == Pass && KeysUnique(after, ObjectKey)
      && EncodedObjectSpec(false, after, prefix, obj.typ, h) == Ok(read)
      && EncodedObjectSpec(false, after, prefix, AnyObject, h) == Ok(read)
      && (t != obj.typ && t != AnyObject ==> EncodedObjectSpec(false, after, prefix, t, h) == Err(ObjectNotFound))
      && (k != h ==> EncodedObjectSpec(false, after, prefix, t, k) == EncodedObjectSpec(false, rows, prefix, t, k))
  {
    SetThenReadOwnKey(rows, prefix, obj, h, t);
    if k != h {
      SetKeepsOtherKey(rows, prefix, obj, h, t, k);
    }
  }

  /** The hash just written reads back by its type or by `AnyObject`, and
      by no other type. */
  lemma SetThenReadOwnKey(rows: seq<ObjectRow>, prefix: string, obj: MemoryObject, h: Hash, t: ObjectType)
    requires KeysUnique(rows, ObjectKey) && IsStorable(obj.typ)
    ensures var (_, r, after) := SetEncodedObjectSpec(false, rows, prefix, obj, h);
      var read := MemoryObject(obj.typ, |obj.data|, obj.data);
      r == Pass && KeysUnique(after, ObjectKey)
      && EncodedObjectSpec(false, after, prefix, obj.typ, h) == Ok(read)
      && EncodedObjectSpec(false, after, prefix, AnyObject, h) == Ok(read)
      && (t != obj.typ && t != AnyObject ==> EncodedObjectSpec(false, after, prefix, t, h) == Err(ObjectNotFound))
  {
    UpsertSpec(rows, ObjRow(prefix, obj, h), ObjectKey, Overwrite, RowKey(prefix, h));
    ParseTypeName(obj.typ);
    if t != obj.typ && t != AnyObject && TypeName(t) == TypeName(obj.typ) {
      TypeNameInjective(t, obj.typ);
    }
  }

  /** Writing one hash leaves what every other hash reads. */
  lemma SetKeepsOtherKey(rows: seq<ObjectRow>, prefix: string, obj: MemoryObject, h: Hash, t: ObjectType, k: Hash)
    requires KeysUnique(rows, ObjectKey) && k != h
    ensures var after := SetEncodedObjectSpec(false, rows, prefix, obj, h).2;
      EncodedObjectSpec(false, after, prefix, t, k) == EncodedObjectSpec(false, rows, prefix, t, k)
  {
    UpsertSpec(rows, ObjRow(prefix, obj, h), ObjectKey, Overwrite, RowKey(prefix, k));
  }

  /** An object of type `AnyObject` or of an invalid type is stored under a
      name `ParseObjectType` refuses, so it reads back as an invalid type. */
  lemma SetUnstorableReadsInvalid(rows: seq<ObjectRow>, prefix: string, obj: MemoryObject, h: Hash)
    requires KeysUnique(rows, ObjectKey) && !IsStorable(obj.typ)
    ensures var after := SetEncodedObjectSpec(false, rows, prefix, obj, h).2;
      EncodedObjectSpec(false, after, prefix, AnyObject, h) == Err(InvalidObjectType)
  {
    UpsertSpec(rows, ObjRow(prefix, obj, h), ObjectKey, Overwrite, RowKey(prefix, h));
    ParseUnstorableName(obj.typ);
  }

  /** `HasEncodedObject` succeeds exactly when a row for (h, prefix) exists,
      which is when `EncodedObject(AnyObject, h)` does not report it
      missing. */
  lemma HasEncodedObjectIffStored(rows: seq<ObjectRow>, prefix: string, h: Hash)
    ensures HasEncodedObjectSpec(false, rows, prefix, h) == Pass <==> Lookup(rows, RowKey(prefix, h), ObjectKey).Some?
    ensures HasEncodedObjectSpec(false, rows, prefix, h).Fail? ==> HasEncodedObjectSpec(false, rows, prefix, h) == Fail(ObjectNotFound)
    ensures HasEncodedObjectSpec(false, rows, prefix, h) == Pass <==> EncodedObjectSpec(false, rows, prefix, AnyObject, h) != Err(ObjectNotFound)
  {
    var found := Lookup(rows, RowKey(prefix, h), ObjectKey);
    if found.Some? {
      var row := found.value;
      assert RowToObject(row) != Err(ObjectNotFound);
    }
  }

  /** A stored object has the size of its bytes, as written and as
      intended. */
  lemma SetThenEncodedObjectSize(rows: seq<ObjectRow>, prefix: string, obj: MemoryObject, h: Hash)
    requires KeysUnique(rows, ObjectKey)
    ensures var after := SetEncodedObjectSpec(false, rows, prefix, obj, h).2;
      HasEncodedObjectSpec(false, after, prefix, h) == Pass
      && EncodedObjectSizeSpec(false, after, prefix, h) == Ok(|obj.data|)
      && EncodedObjectSizeIntendedSpec(false, after, prefix, h) == Ok(|obj.data|)
  {
    UpsertSpec(rows, ObjRow(prefix, obj, h), ObjectKey, Overwrite, RowKey(prefix, h));
    var after := SetEncodedObjectSpec(false, rows, prefix, obj, h).2;
    HasEncodedObjectIffStored(after, prefix, h);
  }

  /** As written, a missing object has size 0 and no error, while
      `HasEncodedObject` and `EncodedObject` report it missing. */
  lemma MissingObjectHasSizeZero(rows: seq<ObjectRow>, prefix: string, h: Hash)
    requires Lookup(rows, RowKey(prefix, h), ObjectKey).None?
    ensures HasEncodedObjectSpec(false, rows, prefix, h) == Fail(ObjectNotFound)
    ensures EncodedObjectSpec(false, rows, prefix, AnyObject, h) == Err(ObjectNotFound)
    ensures EncodedObjectSizeSpec(false, rows, prefix, h) == Ok(0)
  {
    HasEncodedObjectIffStored(rows, prefix, h);
  }

  /** As intended, the size lookup fails exactly when `HasEncodedObject`
      does, with the same error, and otherwise gives the stored size. */
  lemma EncodedObjectSizeIntendedAgreesWithHas(offline: bool, rows: seq<ObjectRow>, prefix: string, h: Hash)
    ensures var size := EncodedObjectSizeIntendedSpec(offline, rows, prefix, h);
      var has := HasEncodedObjectSpec(offline, rows, prefix, h);
      (size.Ok? <==> has == Pass) && (size.Err? ==> has == Fail(size.error))
      && (size.Ok? ==> exists row :: row in rows && ObjectKey(row) == RowKey(prefix, h) && size.value == row.size)
  {
    if !offline {
      HasEncodedObjectIffStored(rows, prefix, h);
    }
  }

  /** The rows the iterator for type `t` selects: url = prefix and
      type = t's name, in table order. */
  function TypedRowsOf(rows: seq<ObjectRow>, prefix: string, t: ObjectType): (r: seq<ObjectRow>)
    ensures forall x :: x in r <==> x in rows && x.url == prefix && x.typ == TypeName(t)
  {
    if rows == [] then []
    else
      var head := if rows[0].url == prefix && rows[0].typ == TypeName(t) then [rows[0]] else [];
      head + TypedRowsOf(rows[1..], prefix, t)
  }

  /** The iterator's conversion: the requested type and the blob; it cannot
      fail. */
  function ObjectOfRow(t: ObjectType): ObjectRow -> Result<MemoryObject>
  {
    (row: ObjectRow) => Ok(MemoryObject(t, |row.blob|, row.blob))
  }

  /** A new iterator over a reachable database hands out one object per
      selected row, in table order, each with the requested type and the
      row's blob. */
  lemma IterEncodedObjectsGivesEveryRow(rows: seq<ObjectRow>, prefix: string, t: ObjectType,
                                        cb: Option<MemoryObject> -> Outcome)
    requires forall x :: cb(x) == Pass
    ensures var selected := TypedRowsOf(rows, prefix, t);
      var (r, _, seen) := ForEachSpec(false, selected, ObjectOfRow(t), cb, Start());
      r == Pass && |seen| == |selected|
      && forall i :: 0 <= i < |selected| ==> seen[i] == Some(MemoryObject(t, |selected[i].blob|, selected[i].blob))
  {
    NewIteratorGivesEveryRow(TypedRowsOf(rows, prefix, t), ObjectOfRow(t), cb);
  }

  /** A stored object is among those the iterator for its type hands out. */
  lemma SetThenIterated(rows: seq<ObjectRow>, prefix: string, obj: MemoryObject, h: Hash,
                        cb: Option<MemoryObject> -> Outcome)
    requires KeysUnique(rows, ObjectKey) && forall x :: cb(x) == Pass
    ensures var after := SetEncodedObjectSpec(false, rows, prefix, obj, h).2;
      var seen := ForEachSpec(false, TypedRowsOf(after, prefix, obj.typ), ObjectOfRow(obj.typ), cb, Start()).2;
      Some(MemoryObject(obj.typ, |obj.data|, obj.data)) in seen
  {
    var row := ObjRow(prefix, obj, h);
    UpsertSpec(rows, row, ObjectKey, Overwrite, RowKey(prefix, h));
    var after := SetEncodedObjectSpec(false, rows, prefix, obj, h).2;
    assert Lookup(after, RowKey(prefix, h), ObjectKey) == Some(row);
    assert row in after;
    StoredRowIterated(after, prefix, obj.typ, row, cb);
  }

  /** Every row of the table with the prefix and the type's name is among
      those the iterator for that type hands out. */
  lemma StoredRowIterated(rows: seq<ObjectRow>, prefix: string, t: ObjectType, row: ObjectRow,
                          cb: Option<MemoryObject> -> Outcome)
    requires row in rows && row.url == prefix && row.typ == TypeName(t) && forall x :: cb(x) == Pass
    ensures Some(MemoryObject(t, |row.blob|, row.blob))
      in ForEachSpec(false, TypedRowsOf(rows, prefix, t), ObjectOfRow(t), cb, Start()).2
  {
    var selected := TypedRowsOf(rows, prefix, t);
    assert row in selected;
    var i :| 0 <= i < |selected| && selected[i] == row;
    IterEncodedObjectsGivesEveryRow(rows, prefix, t, cb);
    assert ForEachSpec(false, selected, ObjectOfRow(t), cb, Start()).2[i] == Some(MemoryObject(t, |row.blob|, row.blob));
  }

  /** The iterator for `AnyObject` selects rows named "any", which no
      object of a storable type is stored under: over such a table it hands
      out nothing. */
  lemma {:induction false} AnyObjectIterationIsEmpty(rows: seq<ObjectRow>, prefix: string)
    requires forall i :: 0 <= i < |rows| ==> ParseObjectType(rows[i].typ).Ok?
    ensures TypedRowsOf(rows, prefix, AnyObject) == []
  {
    if rows != [] {
      assert ParseObjectType(rows[0].typ).Ok?;
      assert forall i :: 0 <= i < |rows[1..]| ==> rows[1..][i] == rows[i + 1];
      AnyObjectIterationIsEmpty(rows[1..], prefix);
    }
  }

  class ObjectStorage {
    const db: Database
    const namespacePrefix: string

    constructor(db: Database, namespacePrefix: string)
      ensures this.db == db && this.namespacePrefix == namespacePrefix
    {
      this.db := db;
      this.namespacePrefix := namespacePrefix;
    }

    /** `NewEncodedObject`: an empty in-memory object. */
    method NewEncodedObject() returns (obj: MemoryObject)
      ensures obj == MemoryObject(InvalidObject, 0, [])
    {
      obj := MemoryObject(InvalidObject, 0, []);
    }

    method SetEncodedObject(obj: MemoryObject, h: Hash) returns (hash: Hash, r: Outcome)
      modifies db
      ensures (hash, r, db.objects) == SetEncodedObjectSpec(old(db.offline), old(db.objects), namespacePrefix, obj, h)
      ensures db.offline == old(db.offline) && db.references == old(db.references) && db.configs == old(db.configs)
      ensures db.shallows == old(db.shallows) && db.indexes == old(db.indexes) && db.codeEmbeddings == old(db.codeEmbeddings)
    {
      if db.offline {
        return h, Fail(ErrQuery);
      }
      db.objects := Upsert(db.objects, ObjRow(namespacePrefix, obj, h), ObjectKey, Overwrite);
      return h, Pass;
    }

    method EncodedObject(t: ObjectType, h: Hash) returns (r: Result<MemoryObject>)
      ensures r == EncodedObjectSpec(db.offline, db.objects, namespacePrefix, t, h)
    {
      if db.offline {
        return Err(ErrQuery);
      }
      var found := Lookup(db.objects, RowKey(namespacePrefix, h), ObjectKey);
      if found.None? || (t != AnyObject && found.value.typ != TypeName(t)) {
        return Err(ObjectNotFound);
      }
      var parsed := ParseObjectType(found.value.typ);
      if parsed.Err? {
        return Err(parsed.error);
      }
      return Ok(MemoryObject(parsed.value, |found.value.blob|, found.value.blob));
    }

    method HasEncodedObject(h: Hash) returns (r: Outcome)
      ensures r == HasEncodedObjectSpec(db.offline, db.objects, namespacePrefix, h)
    {
      if db.offline {
        return Fail(ErrQuery);
      }
      var count := CountRows(db.objects, RowKey(namespacePrefix, h));
      if count == 0 {
        return Fail(ObjectNotFound);
      }
      return Pass;
    }

    /** As written: see `EncodedObjectSizeSpec`. */
    method EncodedObjectSize(h: Hash) returns (r: Result<int>)
      ensures r == EncodedObjectSizeSpec(db.offline, db.objects, namespacePrefix, h)
    {
      if db.offline {
        return Err(ErrQuery);
      }
      var found := Lookup(db.objects, RowKey(namespacePrefix, h), ObjectKey);
      if found.None? {
        return Ok(0);
      }
      return Ok(found.value.size);
    }

    method IterEncodedObjects(t: ObjectType) returns (iter: EncodedObjectIter)
      ensures fresh(iter) && iter.db == db && iter.namespacePrefix == namespacePrefix && iter.objectType == t
      ensures iter.State() == Start()
    {
      iter := new EncodedObjectIter(db, namespacePrefix, t);
    }
  }

  class EncodedObjectIter {
    const db: Database
    const namespacePrefix: string
    const objectType: ObjectType
    var offset: nat
    var objects: seq<Option<MemoryObject>>
    var moreData: bool

    function State(): Page<MemoryObject>
      reads this
    {
      Page(offset, objects, moreData)
    }

    /** The rows the iterator pages through. */
    function Rows(): seq<ObjectRow>
      reads db
    {
      TypedRowsOf(db.objects, namespacePrefix, objectType)
    }

    constructor(db: Database, namespacePrefix: string, objectType: ObjectType)
      ensures this.db == db && this.namespacePrefix == namespacePrefix && this.objectType == objectType
      ensures State() == Start()
    {
      this.db := db;
      this.namespacePrefix := namespacePrefix;
      this.objectType := objectType;
      offset, objects, moreData := 0, [], true;
    }

    method FetchNextBatch() returns (r: Outcome)
      modifies this
      ensures (r, State()) == Fetch(db.offline, Rows(), ObjectOfRow(objectType), old(State()))
    {
      var next;
      r, next := FetchPage(db.offline, Rows(), ObjectOfRow(objectType), State());
      offset, objects, moreData := next.offset, next.buffer, next.moreData;
    }

    method Next() returns (r: Result<Option<MemoryObject>>)
      modifies this
      ensures (r, State()) == NextSpec(db.offline, Rows(), ObjectOfRow(objectType), old(State()))
    {
      var next;
      r, next := NextPage(db.offline, Rows(), ObjectOfRow(objectType), State());
      offset, objects, moreData := next.offset, next.buffer, next.moreData;
    }

    method ForEach(cb: Option<MemoryObject> -> Outcome) returns (r: Outcome, ghost seen: seq<Option<MemoryObject>>)
      modifies this
      ensures (r, State(), seen) == ForEachSpec(db.offline, Rows(), ObjectOfRow(objectType), cb, old(State()))
    {
      var last;
      r, last, seen := ForEachPage(db.offline, Rows(), ObjectOfRow(objectType), cb, State());
      offset, objects, moreData := last.offset, last.buffer, last.moreData;
    }
  }
}
