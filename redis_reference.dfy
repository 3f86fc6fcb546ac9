/** The reference store of the Redis backend: each reference is a JSON
    object of its name, type, target and (for a hash reference) hash, kept
    under the key (prefix, "ref", name). */
module RedisReference {
  import opened Wrappers
  import opened GitPlumbing
  import opened RedisClient
  import opened RedisIter

  const ReferenceKind := "ref"

  function RefKey(prefix: string, name: string): Key
  {
    Ns(prefix, ReferenceKind, name)
  }

  /** `withNamespace(prefix, "ref", "*")`. */
  function RefPattern(prefix: string): Pattern
  {
    Pattern(prefix, ReferenceKind, "", "")
  }

  /** `referenceToMap`: name, type and target always, the hash only for a
      hash reference; a nil reference is refused. */
  function ReferenceToMap(ref: Option<Reference>): (r: Result<map<string, string>>)
    ensures r.Ok? <==> ref.Some?
    ensures r.Ok? ==>
      var x := ref.value;
      r.value.Keys == {"Name", "Type", "Target"} + (if x.typ == HashReference then {"Hash"} else {})
      && r.value["Name"] == x.name && r.value["Type"] == ReferenceTypeName(x.typ)
      && r.value["Target"] == x.target
      && (x.typ == HashReference ==> r.value["Hash"] == x.hash)
  {
    if ref.None? then Err(Message("nil reference"))
    else
      var x := ref.value;
      var fields := map["Name" := x.name, "Type" := ReferenceTypeName(x.typ), "Target" := x.target];
      Ok(if x.typ == HashReference then fields["Hash" := x.hash] else fields)
  }

  /** `jsonToReference`: name, target and type must be present, the hash
      too for a hash reference; only the two reference types decode. */
  function JsonToReference(data: Payload): (r: Result<Reference>)
    ensures r.Ok? ==> WellFormed(r.value) && r.value.typ != InvalidReference
    ensures r.Ok? ==>
      UnmarshalFields(data).Ok?
      && var fields := UnmarshalFields(data).value;
      "Name" in fields && fields["Name"] == r.value.name
      && "Type" in fields && fields["Type"] == ReferenceTypeName(r.value.typ)
  {
    match UnmarshalFields(data)
    case Err(e) => Err(e)
    case Ok(fields) =>
      if "Name" !in fields then Err(Message("invalid reference name"))
      else if "Target" !in fields then Err(Message("invalid reference target"))
      else if "Type" !in fields then Err(Message("invalid reference type"))
      else if fields["Type"] == ReferenceTypeName(HashReference) && "Hash" !in fields then
        Err(Message("invalid reference hash"))
      else if fields["Type"] == ReferenceTypeName(SymbolicReference) then
        Ok(NewSymbolicReference(fields["Name"], fields["Target"]))
      else if fields["Type"] == ReferenceTypeName(HashReference) then
        Ok(NewHashReference(fields["Name"], NewHash(fields["Hash"])))
      else Err(Message("unsupported reference type"))
  }

  /** The document `SetReference` writes. */
  function Encoded(fields: map<string, string>): Payload
  {
    Json(FieldsDoc(fields))
  }

  /** Decoding what `referenceToMap` gives reconstructs a hash or symbolic
      reference. */
  lemma ReferenceRoundTrip(ref: Reference)
    requires WellFormed(ref) && ref.typ != InvalidReference
    ensures JsonToReference(Encoded(ReferenceToMap(Some(ref)).value)) == Ok(ref)
  {
    var fields := ReferenceToMap(Some(ref)).value;
    assert "Name" != "Type" && "Name" != "Target" && "Type" != "Target" && "Hash" != "Type";
    assert ReferenceTypeName(HashReference)[0] != ReferenceTypeName(SymbolicReference)[0];
    if ref.typ == HashReference {
      NewHashOfString(ref.hash);
      assert fields["Type"] == ReferenceTypeName(HashReference) && fields["Hash"] == ref.hash;
    } else {
      assert fields["Type"] == ReferenceTypeName(SymbolicReference);
    }
  }

  /** An invalid reference is written but does not read back. */
  lemma InvalidReferenceDoesNotDecode(ref: Reference)
    requires ref.typ == InvalidReference
    ensures JsonToReference(Encoded(ReferenceToMap(Some(ref)).value)) == Err(Message("unsupported reference type"))
  {
  }

  /** `SetReference`. */
  function SetReferenceSpec(db: Db, prefix: string, ref: Option<Reference>): (r: (Outcome, Db))
    ensures ref.None? ==> r == (Fail(Message("nil reference")), db)
    ensures ref.Some? ==> r == db.Set(RefKey(prefix, ref.value.name), Encoded(ReferenceToMap(ref).value))
  {
    match ReferenceToMap(ref)
    case Err(e) => (Fail(e), db)
    case Ok(fields) => db.Set(RefKey(prefix, ref.value.name), Encoded(fields))
  }

  /** `Reference`: a missing key is `ErrReferenceNotFound`. */
  function ReferenceSpec(db: Db, prefix: string, name: string): (r: Result<Reference>)
    ensures !db.offline && RefKey(prefix, name) !in db.data ==> r == Err(ReferenceNotFound)
  {
    match db.Get(RefKey(prefix, name))
    case Err(e) => if e == ErrNil then Err(ReferenceNotFound) else Err(e)
    case Ok(data) => JsonToReference(data)
  }

  /** `SetReference` and `Reference` use the same key: a written reference
      reads back, and no other reference changes. */
  lemma SetThenReference(db: Db, prefix: string, ref: Reference, other: string)
    requires !db.offline && WellFormed(ref) && ref.typ != InvalidReference
    requires other != ref.name
    ensures var (r, after) := SetReferenceSpec(db, prefix, Some(ref));
      r == Pass && ReferenceSpec(after, prefix, ref.name) == Ok(ref)
      && ReferenceSpec(after, prefix, other) == ReferenceSpec(db, prefix, other)
  {
    ReferenceRoundTrip(ref);
  }

  const ErrNilNewReference := Message("new reference cannot be nil")

  /** `CheckAndSetReference`, as one atomic step: with an old reference the
      stored one must exist and carry the old hash; then the new one is
      written. */
  function CheckAndSetSpec(db: Db, prefix: string, newRef: Option<Reference>, oldRef: Option<Reference>): (Outcome, Db)
  {
    if newRef.None? then (Fail(ErrNilNewReference), db)
    else
      var key := RefKey(prefix, newRef.value.name);
      var got := db.Get(key);
      if got.Err? && got.error != ErrNil then (Fail(got.error), db)
      else if oldRef.Some? && got.Err? then (Fail(ReferenceHasChanged), db)
      else if oldRef.Some? && JsonToReference(got.value).Err? then (Fail(JsonToReference(got.value).error), db)
      else if oldRef.Some? && JsonToReference(got.value).value.hash != oldRef.value.hash then (Fail(ReferenceHasChanged), db)
      else SetReferenceSpec(db, prefix, newRef)
  }

  /** A check-and-set either leaves the store as it was or writes the new
      reference, and it writes only when the stored hash is the old one. */
  lemma CheckAndSetWritesOnlyOnMatch(db: Db, prefix: string, newRef: Option<Reference>, oldRef: Option<Reference>)
    ensures var (r, after) := CheckAndSetSpec(db, prefix, newRef, oldRef);
      (r.Fail? ==> after == db)
      && (r.Pass? ==> newRef.Some? && (after, r) == (SetReferenceSpec(db, prefix, newRef).1, Pass))
      && (r.Pass? && oldRef.Some? ==>
            ReferenceSpec(db, prefix, newRef.value.name).Ok?
            && ReferenceSpec(db, prefix, newRef.value.name).value.hash == oldRef.value.hash)
  {
  }

  /** Without an old reference the new one is written unconditionally. */
  lemma CheckAndSetWithoutOldSets(db: Db, prefix: string, newRef: Reference)
    requires !db.offline && (RefKey(prefix, newRef.name) in db.data ==> db.data[RefKey(prefix, newRef.name)].Str?)
    ensures CheckAndSetSpec(db, prefix, Some(newRef), None) == SetReferenceSpec(db, prefix, Some(newRef))
  {
  }

  /** An expected reference that is missing has changed. */
  lemma CheckAndSetMissingHasChanged(db: Db, prefix: string, newRef: Reference, oldRef: Reference)
    requires !db.offline && RefKey(prefix, newRef.name) !in db.data
    ensures CheckAndSetSpec(db, prefix, Some(newRef), Some(oldRef)) == (Fail(ReferenceHasChanged), db)
  {
  }

  /** Only hashes are compared: every symbolic reference carries the zero
      hash, so a check against a symbolic reference passes whatever target
      the stored one has. */
  lemma SymbolicTargetsAreNotCompared(db: Db, prefix: string, name: string, stored: string, expected: string, target: string)
    requires !db.offline
    requires RefKey(prefix, name) in db.data
    requires db.data[RefKey(prefix, name)] == Str(Encoded(ReferenceToMap(Some(NewSymbolicReference(name, stored))).value))
    ensures var newRef := NewSymbolicReference(name, target);
      CheckAndSetSpec(db, prefix, Some(newRef), Some(NewSymbolicReference(name, expected)))
      == SetReferenceSpec(db, prefix, Some(newRef))
  {
    ReferenceRoundTrip(NewSymbolicReference(name, stored));
  }

  /** `CountLooseRefs`: the number of keys a whole SCAN of the pattern
      returns. */
  function CountLooseRefsSpec(db: Db, prefix: string): Result<nat>
  {
    if db.offline then Err(ErrConnection) else Ok(|db.ScanAll(RefPattern(prefix))|)
  }

  /** Over a valid layout that number is the number of stored references. */
  lemma CountIsStoredReferences(db: Db, prefix: string)
    requires !db.offline && db.ValidLayout()
    ensures CountLooseRefsSpec(db, prefix) == Ok(|set k | k in db.data && k.Ns? && k.prefix == prefix && k.kind == ReferenceKind|)
  {
    ScanAllIsMatchingKeys(db, RefPattern(prefix));
    assert db.MatchingKeys(RefPattern(prefix)) == set k | k in db.data && k.Ns? && k.prefix == prefix && k.kind == ReferenceKind;
  }

  /** The iterator's decoder. */
  function DecodeReference(data: Payload): Result<Reference>
  {
    JsonToReference(data)
  }

  class ReferenceStorage {
    const client: Client
    const namespacePrefix: string

    constructor(client: Client, namespacePrefix: string)
      ensures this.client == client && this.namespacePrefix == namespacePrefix
    {
      this.client := client;
      this.namespacePrefix := namespacePrefix;
    }

    method SetReference(ref: Option<Reference>) returns (r: Outcome)
      modifies client
      ensures (r, client.db) == SetReferenceSpec(old(client.db), namespacePrefix, ref)
    {
      var fields := ReferenceToMap(ref);
      if fields.Err? {
        return Fail(fields.error);
      }
      r := client.Set(RefKey(namespacePrefix, ref.value.name), Encoded(fields.value));
    }

    method Reference(name: string) returns (r: Result<Reference>)
      ensures r == ReferenceSpec(client.db, namespacePrefix, name)
    {
      var data := client.Get(RefKey(namespacePrefix, name));
      if data.Err? {
        if data.error == ErrNil {
          return Err(ReferenceNotFound);
        }
        return Err(data.error);
      }
      r := JsonToReference(data.value);
    }

    method CheckAndSetReference(newRef: Option<Reference>, oldRef: Option<Reference>) returns (r: Outcome)
      modifies client
      ensures (r, client.db) == CheckAndSetSpec(old(client.db), namespacePrefix, newRef, oldRef)
    {
      if newRef.None? {
        return Fail(ErrNilNewReference);
      }
      var key := RefKey(namespacePrefix, newRef.value.name);
      var data := client.Get(key);
      if data.Err? && data.error != ErrNil {
        return Fail(data.error);
      }
      if oldRef.Some? {
        if data.Err? {
          return Fail(ReferenceHasChanged);
        }
        var current := JsonToReference(data.value);
        if current.Err? {
          return Fail(current.error);
        }
        if current.value.hash != oldRef.value.hash {
          return Fail(ReferenceHasChanged);
        }
      }
      var fields := ReferenceToMap(newRef);
      r := client.Set(key, Encoded(fields.value));
    }

    method CountLooseRefs() returns (r: Result<nat>)
      ensures r == CountLooseRefsSpec(client.db, namespacePrefix)
    {
      var p := RefPattern(namespacePrefix);
      var count := 0;
      var cursor: nat := 0;
      while true
        invariant cursor <= |client.db.layout| && (cursor == 0 || cursor < |client.db.layout|)
        invariant count == |ScannedBefore(client.db, p, cursor)|
        decreases |client.db.layout| - cursor
      {
        var scanned := client.Scan(cursor, p);
        if scanned.Err? {
          return Err(scanned.error);
        }
        var (keys, next) := scanned.value;
        if cursor < |client.db.layout| {
          ScannedStep(client.db, p, cursor);
        }
        count := count + |keys|;
        if next == 0 {
          if cursor < |client.db.layout| {
            assert client.db.layout[..cursor + 1] == client.db.layout;
          } else {
            assert client.db.layout == [];
          }
          return Ok(count);
        }
        cursor := next;
      }
    }

    /** `RemoveReference` is not implemented and panics. */
    method RemoveReference(name: string) returns (r: Outcome)
      ensures r == Fail(Panic("unimplemented"))
    {
      r := Fail(Panic("unimplemented"));
    }

    method IterReferences() returns (iter: ScanIter<Reference>)
      ensures fresh(iter) && iter.client == client
      ensures iter.pattern == RefPattern(namespacePrefix) && iter.decode == DecodeReference
      ensures iter.State() == Fetch(client.db, RefPattern(namespacePrefix), Initial)
    {
      iter := new ScanIter(client, RefPattern(namespacePrefix), DecodeReference);
    }
  }
}
