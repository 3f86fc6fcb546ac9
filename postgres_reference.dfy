/** The reference store of the Postgres backend: one row per (url, name) in
    the references table, where url is the store's namespace prefix. */
module PostgresReference {
  import opened Wrappers
  import opened Strings
  import opened GitPlumbing
  import opened Database
  import opened PostgresPaging

  /** The row a reference is written as. */
  function RefRow(prefix: string, ref: Reference): ReferenceRow
  {
    ReferenceRow(ref.name, ReferenceTypeName(ref.typ), ref.target, ref.hash, prefix)
  }

  /** `SetReference`'s conflict rule: only the hash is overwritten. */
  function UpdateHashOnly(current: ReferenceRow, incoming: ReferenceRow): ReferenceRow
  {
    incoming.(typ := current.typ, target := current.target)
  }

  /** `setReference`'s conflict rule: hash, type and target are overwritten. */
  function UpdateAll(current: ReferenceRow, incoming: ReferenceRow): ReferenceRow
  {
    incoming
  }

  /** `SetReference`: an upsert on (url, name).  A nil reference is
      dereferenced before any query is sent, which panics. */
  function SetReferenceSpec(offline: bool, rows: seq<ReferenceRow>, prefix: string, ref: Option<Reference>): (Outcome, seq<ReferenceRow>)
  {
    if ref.None? then (Fail(Panic("nil pointer dereference: ref")), rows)
    else if offline then (Fail(ErrQuery), rows)
    else (Pass, Upsert(rows, RefRow(prefix, ref.value), ReferenceKey, UpdateHashOnly))
  }

  /** A nil reference panics and a lost connection fails; neither writes a
      row. */
  lemma SetReferenceFailures(offline: bool, rows: seq<ReferenceRow>, prefix: string, ref: Option<Reference>)
    ensures var (r, after) := SetReferenceSpec(offline, rows, prefix, ref);
      (r.Fail? <==> ref.None? || offline) && (r.Fail? ==> after == rows)
      && (ref.None? ==> r == Fail(Panic("nil pointer dereference: ref")))
  {
  }

  /** `setReference` inside a transaction. */
  function SetReferenceAllSpec(rows: seq<ReferenceRow>, prefix: string, ref: Reference): seq<ReferenceRow>
  {
    Upsert(rows, RefRow(prefix, ref), ReferenceKey, UpdateAll)
  }

  /** The reference `Reference` builds from a row: a hash reference from
      the hash column, a symbolic one to the target. */
  function RowToReference(name: string, row: ReferenceRow): (r: Result<Reference>)
    ensures r.Ok? ==> WellFormed(r.value) && r.value.name == name && ReferenceTypeName(r.value.typ) == row.typ
  {
    if row.typ == ReferenceTypeName(HashReference) then Ok(NewHashReference(name, NewHash(row.hash)))
    else if row.typ == ReferenceTypeName(SymbolicReference) then Ok(NewSymbolicReference(name, row.target))
    else Err(Message("unknown reference type"))
  }

  /** `Reference`: the row for (prefix, name), or `ErrReferenceNotFound`. */
  function ReferenceSpec(offline: bool, rows: seq<ReferenceRow>, prefix: string, name: string): Result<Reference>
  {
    if offline then Err(ErrQuery)
    else match Lookup(rows, (name, prefix), ReferenceKey)
      case None => Err(ReferenceNotFound)
      case Some(row) => RowToReference(name, row)
  }

  /** A reference of a valid type reads back as it was stored. */
  lemma RowOfReferenceReadsBack(prefix: string, ref: Reference)
    requires WellFormed(ref) && ref.typ != InvalidReference
    ensures RowToReference(ref.name, RefRow(prefix, ref)) == Ok(ref)
  {
    NewHashOfString(ref.hash);
  }

  /** Storing a reference under a new name and reading it back gives it. */
  lemma SetThenReference(rows: seq<ReferenceRow>, prefix: string, ref: Reference)
    requires KeysUnique(rows, ReferenceKey) && WellFormed(ref) && ref.typ != InvalidReference
    requires Lookup(rows, (ref.name, prefix), ReferenceKey).None?
    ensures var (r, after) := SetReferenceSpec(false, rows, prefix, Some(ref));
      r == Pass && KeysUnique(after, ReferenceKey) && ReferenceSpec(false, after, prefix, ref.name) == Ok(ref)
  {
    UpsertSpec(rows, RefRow(prefix, ref), ReferenceKey, UpdateHashOnly, (ref.name, prefix));
    RowOfReferenceReadsBack(prefix, ref);
  }

  /** Over an existing row, `SetReference` keeps the stored type and target:
      a hash reference written over a symbolic one reads back as the old
      symbolic reference. */
  lemma SetReferenceKeepsStoredType(rows: seq<ReferenceRow>, prefix: string, ref: Reference, current: ReferenceRow)
    requires KeysUnique(rows, ReferenceKey)
    requires Lookup(rows, (ref.name, prefix), ReferenceKey) == Some(current)
    ensures var after := SetReferenceSpec(false, rows, prefix, Some(ref)).1;
      Lookup(after, (ref.name, prefix), ReferenceKey) == Some(current.(hash := ref.hash))
      && (current.typ == ReferenceTypeName(SymbolicReference) ==>
            ReferenceSpec(false, after, prefix, ref.name) == Ok(NewSymbolicReference(ref.name, current.target)))
  {
    UpsertSpec(rows, RefRow(prefix, ref), ReferenceKey, UpdateHashOnly, (ref.name, prefix));
  }

  /** Other names are not touched by an upsert. */
  lemma SetReferenceKeepsOthers(rows: seq<ReferenceRow>, prefix: string, ref: Reference, name: string)
    requires KeysUnique(rows, ReferenceKey) && name != ref.name
    ensures var after := SetReferenceSpec(false, rows, prefix, Some(ref)).1;
      KeysUnique(after, ReferenceKey) && ReferenceSpec(false, after, prefix, name) == ReferenceSpec(false, rows, prefix, name)
  {
    UpsertSpec(rows, RefRow(prefix, ref), ReferenceKey, UpdateHashOnly, (name, prefix));
  }

  /** go-git's `NewReferenceFromStrings`: a target "ref: x" is a symbolic
      reference to x, anything else a hash reference to the hash it
      spells. */
  function NewReferenceFromStrings(name: string, target: string): Reference
  {
    if StartsWith(target, "ref: ") then NewSymbolicReference(name, target[5..])
    else NewHashReference(name, NewHash(target))
  }

  const ErrNilNewReference := Message("new reference cannot be nil")

  /** `CheckAndSetReference` as written: the current reference is rebuilt
      from the row's name and target, so its hash is that of the target
      column. */
  function CheckAndSetSpec(offline: bool, rows: seq<ReferenceRow>, prefix: string,
                           newRef: Option<Reference>, oldRef: Option<Reference>): (Outcome, seq<ReferenceRow>)
  {
    if newRef.None? then (Fail(ErrNilNewReference), rows)
    else if offline then (Fail(ErrQuery), rows)
    else
      var current := Lookup(rows, (newRef.value.name, prefix), ReferenceKey);
      if oldRef.Some? && current.None? then (Fail(ReferenceNotFound), rows)
      else if oldRef.Some? && NewReferenceFromStrings(current.value.name, current.value.target).hash != oldRef.value.hash then
        (Fail(ReferenceHasChanged), rows)
      else (Pass, SetReferenceAllSpec(rows, prefix, newRef.value))
  }

  /** Without an old reference the new one is written whatever is stored,
      and replaces type and target too. */
  lemma CheckAndSetWithoutOldWrites(rows: seq<ReferenceRow>, prefix: string, newRef: Reference)
    requires KeysUnique(rows, ReferenceKey) && WellFormed(newRef) && newRef.typ != InvalidReference
    ensures var (r, after) := CheckAndSetSpec(false, rows, prefix, Some(newRef), None);
      r == Pass && ReferenceSpec(false, after, prefix, newRef.name) == Ok(newRef)
  {
    UpsertSpec(rows, RefRow(prefix, newRef), ReferenceKey, UpdateAll, (newRef.name, prefix));
    RowOfReferenceReadsBack(prefix, newRef);
  }

  /** With an old reference and no row, the result is
      `ErrReferenceNotFound` (the Redis store answers
      `ErrReferenceHasChanged` here); a nil new reference is refused first. */
  lemma CheckAndSetErrors(rows: seq<ReferenceRow>, prefix: string, newRef: Reference, oldRef: Reference, offline: bool)
    ensures CheckAndSetSpec(offline, rows, prefix, None, Some(oldRef)) == (Fail(ErrNilNewReference), rows)
    ensures !offline && Lookup(rows, (newRef.name, prefix), ReferenceKey).None? ==>
              CheckAndSetSpec(offline, rows, prefix, Some(newRef), Some(oldRef)) == (Fail(ReferenceNotFound), rows)
    ensures CheckAndSetSpec(offline, rows, prefix, Some(newRef), Some(oldRef)).0.Fail? ==>
              CheckAndSetSpec(offline, rows, prefix, Some(newRef), Some(oldRef)).1 == rows
  {
  }

  /** As written, a stored hash reference is never matched: its target
      column is empty, so the rebuilt hash is the zero hash, and a
      check-and-set against the unchanged reference reports a change. */
  lemma CheckAndSetRejectsUnchangedHash(rows: seq<ReferenceRow>, prefix: string, newRef: Reference, stored: Reference)
    requires stored == NewHashReference(stored.name, stored.hash) && stored.hash != ZeroHash
    requires newRef.name == stored.name
    requires Lookup(rows, (stored.name, prefix), ReferenceKey) == Some(RefRow(prefix, stored))
    ensures ReferenceSpec(false, rows, prefix, stored.name) == Ok(stored)
    ensures CheckAndSetSpec(false, rows, prefix, Some(newRef), Some(stored)) == (Fail(ReferenceHasChanged), rows)
  {
    RowOfReferenceReadsBack(prefix, stored);
    assert !StartsWith("", "ref: ");
  }

  /** `CheckAndSetReference` as intended: the current hash is the row's
      hash column, the hash `Reference` reads. */
  function CheckAndSetIntendedSpec(offline: bool, rows: seq<ReferenceRow>, prefix: string,
                                   newRef: Option<Reference>, oldRef: Option<Reference>): (Outcome, seq<ReferenceRow>)
  {
    if newRef.None? then (Fail(ErrNilNewReference), rows)
    else if offline then (Fail(ErrQuery), rows)
    else
      var current := Lookup(rows, (newRef.value.name, prefix), ReferenceKey);
      if oldRef.Some? && current.None? then (Fail(ReferenceNotFound), rows)
      else if oldRef.Some? && NewHash(current.value.hash) != oldRef.value.hash then (Fail(ReferenceHasChanged), rows)
      else (Pass, SetReferenceAllSpec(rows, prefix, newRef.value))
  }

  /** As intended, a check-and-set against a reference the store wrote
      succeeds exactly when the old reference's hash is the stored one, and
      then stores the new reference. */
  lemma CheckAndSetIntendedMatchesStored(rows: seq<ReferenceRow>, prefix: string, newRef: Reference,
                                         stored: Reference, oldRef: Reference)
    requires KeysUnique(rows, ReferenceKey) && WellFormed(newRef) && newRef.typ != InvalidReference
    requires WellFormed(stored) && stored.typ != InvalidReference && stored.name == newRef.name
    requires Lookup(rows, (newRef.name, prefix), ReferenceKey) == Some(RefRow(prefix, stored))
    ensures ReferenceSpec(false, rows, prefix, newRef.name) == Ok(stored)
    ensures var (r, after) := CheckAndSetIntendedSpec(false, rows, prefix, Some(newRef), Some(oldRef));
      (r.Pass? <==> stored.hash == oldRef.hash)
      && (r.Pass? ==> ReferenceSpec(false, after, prefix, newRef.name) == Ok(newRef))
      && (r.Fail? ==> r == Fail(ReferenceHasChanged) && after == rows)
  {
    RowOfReferenceReadsBack(prefix, stored);
    NewHashOfString(stored.hash);
    var res := CheckAndSetIntendedSpec(false, rows, prefix, Some(newRef), Some(oldRef));
    if stored.hash == oldRef.hash {
      var row := RefRow(prefix, newRef);
      var after := SetReferenceAllSpec(rows, prefix, newRef);
      assert res == (Pass, after);
      UpsertSpec(rows, row, ReferenceKey, UpdateAll, (newRef.name, prefix));
      assert ReferenceKey(row) == (newRef.name, prefix);
      assert Lookup(after, (newRef.name, prefix), ReferenceKey) == Some(row);
      RowOfReferenceReadsBack(prefix, newRef);
    } else {
      assert res == (Fail(ReferenceHasChanged), rows);
    }
  }

  /** The rows of one namespace, in table order. */
  function RowsOf(rows: seq<ReferenceRow>, prefix: string): (r: seq<ReferenceRow>)
    ensures forall x :: x in r <==> x in rows && x.url == prefix
  {
    if rows == [] then []
    else (if rows[0].url == prefix then [rows[0]] else []) + RowsOf(rows[1..], prefix)
  }

  /** The iterator's conversion as written: hash references are built from
      the target column. */
  function IterRowToReference(row: ReferenceRow): Result<Reference>
  {
    if row.typ == ReferenceTypeName(HashReference) then Ok(NewHashReference(row.name, NewHash(row.target)))
    else if row.typ == ReferenceTypeName(SymbolicReference) then Ok(NewSymbolicReference(row.name, row.target))
    else Err(Message("unknown reference type"))
  }

  /** As written, the iterator hands out every stored hash reference with
      the zero hash. */
  lemma IteratedHashReferenceLosesHash(prefix: string, ref: Reference)
    requires ref == NewHashReference(ref.name, ref.hash)
    ensures IterRowToReference(RefRow(prefix, ref)) == Ok(NewHashReference(ref.name, ZeroHash))
  {
  }

  /** The iterator's conversion as intended: the reference `Reference`
      reads. */
  function IterRowToReferenceIntended(row: ReferenceRow): Result<Reference>
  {
    RowToReference(row.name, row)
  }

  /** As intended, the iterator hands out every stored reference as it was
      stored. */
  lemma IteratedReferenceIntendedReadsBack(prefix: string, ref: Reference)
    requires WellFormed(ref) && ref.typ != InvalidReference
    ensures IterRowToReferenceIntended(RefRow(prefix, ref)) == Ok(ref)
  {
    RowOfReferenceReadsBack(prefix, ref);
  }

  class ReferenceStorage {
    const db: Database
    const namespacePrefix: string

    constructor(db: Database, namespacePrefix: string)
      ensures this.db == db && this.namespacePrefix == namespacePrefix
    {
      this.db := db;
      this.namespacePrefix := namespacePrefix;
    }

    method SetReference(ref: Option<Reference>) returns (r: Outcome)
      modifies db
      ensures (r, db.references) == SetReferenceSpec(old(db.offline), old(db.references), namespacePrefix, ref)
      ensures db.offline == old(db.offline) && db.objects == old(db.objects) && db.configs == old(db.configs)
      ensures db.shallows == old(db.shallows) && db.indexes == old(db.indexes) && db.codeEmbeddings == old(db.codeEmbeddings)
    {
      if ref.None? {
        return Fail(Panic("nil pointer dereference: ref"));
      }
      if db.offline {
        return Fail(ErrQuery);
      }
      db.references := Upsert(db.references, RefRow(namespacePrefix, ref.value), ReferenceKey, UpdateHashOnly);
      return Pass;
    }

    method Reference(name: string) returns (r: Result<Reference>)
      ensures r == ReferenceSpec(db.offline, db.references, namespacePrefix, name)
    {
      if db.offline {
        return Err(ErrQuery);
      }
      var found := Lookup(db.references, (name, namespacePrefix), ReferenceKey);
      if found.None? {
        return Err(ReferenceNotFound);
      }
      r := RowToReference(name, found.value);
    }

    method CheckAndSetReference(newRef: Option<Reference>, oldRef: Option<Reference>) returns (r: Outcome)
      modifies db
      ensures (r, db.references) == CheckAndSetSpec(old(db.offline), old(db.references), namespacePrefix, newRef, oldRef)
      ensures db.offline == old(db.offline) && db.objects == old(db.objects) && db.configs == old(db.configs)
      ensures db.shallows == old(db.shallows) && db.indexes == old(db.indexes) && db.codeEmbeddings == old(db.codeEmbeddings)
    {
      if newRef.None? {
        return Fail(ErrNilNewReference);
      }
      if db.offline {
        return Fail(ErrQuery);
      }
      var current := Lookup(db.references, (newRef.value.name, namespacePrefix), ReferenceKey);
      if oldRef.Some? {
        if current.None? {
          return Fail(ReferenceNotFound);
        }
        var currentRef := NewReferenceFromStrings(current.value.name, current.value.target);
        if currentRef.hash != oldRef.value.hash {
          return Fail(ReferenceHasChanged);
        }
      }
      db.references := SetReferenceAllSpec(db.references, namespacePrefix, newRef.value);
      return Pass;
    }

    method IterReferences() returns (iter: ReferenceIter)
      ensures fresh(iter) && iter.db == db && iter.namespacePrefix == namespacePrefix
      ensures iter.State() == Start()
    {
      iter := new ReferenceIter(db, namespacePrefix);
    }
  }

  class ReferenceIter {
    const db: Database
    const namespacePrefix: string
    var offset: nat
    var refs: seq<Option<Reference>>
    var moreData: bool

    function State(): Page<Reference>
      reads this
    {
      Page(offset, refs, moreData)
    }

    /** The rows the iterator pages through. */
    function Rows(): seq<ReferenceRow>
      reads db
    {
      RowsOf(db.references, namespacePrefix)
    }

    constructor(db: Database, namespacePrefix: string)
      ensures this.db == db && this.namespacePrefix == namespacePrefix && State() == Start()
    {
      this.db := db;
      this.namespacePrefix := namespacePrefix;
      offset, refs, moreData := 0, [], true;
    }

    method FetchNextBatch() returns (r: Outcome)
      modifies this
      ensures (r, State()) == Fetch(db.offline, Rows(), IterRowToReference, old(State()))
    {
      var next;
      r, next := FetchPage(db.offline, Rows(), IterRowToReference, State());
      offset, refs, moreData := next.offset, next.buffer, next.moreData;
    }

    method Next() returns (r: Result<Option<Reference>>)
      modifies this
      ensures (r, State()) == NextSpec(db.offline, Rows(), IterRowToReference, old(State()))
    {
      var next;
      r, next := NextPage(db.offline, Rows(), IterRowToReference, State());
      offset, refs, moreData := next.offset, next.buffer, next.moreData;
    }

    method ForEach(cb: Option<Reference> -> Outcome) returns (r: Outcome, ghost seen: seq<Option<Reference>>)
      modifies this
      ensures (r, State(), seen) == ForEachSpec(db.offline, Rows(), IterRowToReference, cb, old(State()))
    {
      var last;
      r, last, seen := ForEachPage(db.offline, Rows(), IterRowToReference, cb, State());
      offset, refs, moreData := last.offset, last.buffer, last.moreData;
    }
  }
}
