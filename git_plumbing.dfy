/** The go-git values the cache backends store: hashes, object types,
    references, in-memory objects, and the repository config and index,
    which are stored as JSON documents. */
module GitPlumbing {
  import opened Wrappers
  import opened Strings

  predicate IsLowerHex(c: char) { '0' <= c <= '9' || 'a' <= c <= 'f' }

  predicate IsHex(c: char) { IsLowerHex(c) || 'A' <= c <= 'F' }

  /** The text of a hash: 40 lower-case hexadecimal digits, as
      `Hash.String()` writes it. */
  predicate IsHashText(s: string) { |s| == 40 && forall k :: 0 <= k < |s| ==> IsLowerHex(s[k]) }

  const ZeroHashText := "0000000000000000000000000000000000000000"

  /** A SHA-1 object name, represented by its text. */
  type Hash = s: string | IsHashText(s) witness ZeroHashText

  const ZeroHash: Hash := ZeroHashText

  /** `plumbing.NewHash`: 40 hexadecimal digits of either case name the hash
      they spell. */
  function NewHash(s: string): (h: Hash)
    ensures IsHashText(s) ==> h == s
  {
    if |s| == 40 && forall k :: 0 <= k < |s| ==> IsHex(s[k]) then
      var lower := ToLower(s);
      assert forall k :: 0 <= k < |lower| ==> IsLowerHex(lower[k]) by {
        forall k | 0 <= k < |lower| ensures IsLowerHex(lower[k]) {
          assert lower[k] == ToLowerChar(s[k]);
        }
      }
      lower
    else ZeroHash
  }

  /** The text of a hash read back gives the hash. */
  lemma NewHashOfString(h: Hash)
    ensures NewHash(h) == h
  {
  }

  /** `plumbing.ObjectType`, with `AnyObject` for lookups of any type. */
  datatype ObjectType =
    | CommitObject | TreeObject | BlobObject | TagObject | OfsDeltaObject | RefDeltaObject
    | AnyObject | InvalidObject

  /** `ObjectType.String()`. */
  function TypeName(t: ObjectType): string
  {
    match t
    case CommitObject => "commit"
    case TreeObject => "tree"
    case BlobObject => "blob"
    case TagObject => "tag"
    case OfsDeltaObject => "ofs-delta"
    case RefDeltaObject => "ref-delta"
    case AnyObject => "any"
    case InvalidObject => "unknown"
  }

  /** The types an object can be stored with. */
  predicate IsStorable(t: ObjectType)
  {
    t != AnyObject && t != InvalidObject
  }

  /** `plumbing.ParseObjectType`: the six storable type names. */
  function ParseObjectType(s: string): (r: Result<ObjectType>)
    ensures r.Ok? ==> IsStorable(r.value) && TypeName(r.value) == s
  {
    if s == "commit" then Ok(CommitObject)
    else if s == "tree" then Ok(TreeObject)
    else if s == "blob" then Ok(BlobObject)
    else if s == "tag" then Ok(TagObject)
    else if s == "ofs-delta" then Ok(OfsDeltaObject)
    else if s == "ref-delta" then Ok(RefDeltaObject)
    else Err(InvalidObjectType)
  }

  /** Parsing the name of a storable type gives the type back. */
  lemma ParseTypeName(t: ObjectType)
    requires IsStorable(t)
    ensures ParseObjectType(TypeName(t)) == Ok(t)
  {
  }

  /** The names of the two types that cannot be stored do not parse. */
  lemma ParseUnstorableName(t: ObjectType)
    requires !IsStorable(t)
    ensures ParseObjectType(TypeName(t)) == Err(InvalidObjectType)
  {
    assert TypeName(t)[0] == 'a' || TypeName(t)[0] == 'u';
  }

  /** Different types have different names. */
  lemma TypeNameInjective(s: ObjectType, t: ObjectType)
    requires TypeName(s) == TypeName(t)
    ensures s == t
  {
  }

  /** A `plumbing.MemoryObject`: its type, declared size and content. */
  datatype MemoryObject = MemoryObject(typ: ObjectType, size: int, data: seq<Byte>)

  datatype ReferenceType = HashReference | SymbolicReference | InvalidReference

  /** `ReferenceType.String()`. */
  function ReferenceTypeName(t: ReferenceType): string
  {
    match t
    case HashReference => "hash-reference"
    case SymbolicReference => "symbolic-reference"
    case InvalidReference => "invalid-reference"
  }

  /** A `plumbing.Reference`: a hash reference has no target, a symbolic
      one the zero hash. */
  datatype Reference = Reference(typ: ReferenceType, name: string, target: string, hash: Hash)

  function NewHashReference(name: string, h: Hash): Reference
  {
    Reference(HashReference, name, "", h)
  }

  function NewSymbolicReference(name: string, target: string): Reference
  {
    Reference(SymbolicReference, name, target, ZeroHash)
  }

  /** A reference as the two constructors build it. */
  predicate WellFormed(r: Reference)
  {
    r == NewHashReference(r.name, r.hash) || r == NewSymbolicReference(r.name, r.target)
  }

  /** A go-git `config.Config`, cut down to its sections' settings. */
  datatype Config = Config(settings: map<string, string>)

  /** `config.NewConfig()`. */
  const DefaultConfig := Config(map[])

  /** A go-git `index.Index`: its version and entry paths. */
  datatype Index = Index(version: int, entries: seq<string>)

  /** The index `Index` returns when none is stored. */
  const DefaultIndex := Index(2, [])

  /** A JSON document the backends write with `json.Marshal`: an object of
      string fields, or a config or an index. */
  datatype JsonDoc = FieldsDoc(fields: map<string, string>) | ConfigDoc(config: Config) | IndexDoc(index: Index)

  /** Stored bytes: raw bytes, or the encoding of a JSON document. */
  datatype Payload = Raw(bytes: seq<Byte>) | Json(doc: JsonDoc)

  const UnmarshalError := Foreign("json.Unmarshal")

  /** `json.Unmarshal` into a map of fields. */
  function UnmarshalFields(p: Payload): (r: Result<map<string, string>>)
    ensures r.Ok? <==> p.Json? && p.doc.FieldsDoc?
  {
    if p.Json? && p.doc.FieldsDoc? then Ok(p.doc.fields) else Err(UnmarshalError)
  }

  /** `json.Unmarshal` into a config; empty or foreign data fails. */
  function UnmarshalConfig(p: Payload): (r: Result<Config>)
    ensures r.Ok? <==> p.Json? && p.doc.ConfigDoc?
    ensures r.Ok? ==> p == Json(ConfigDoc(r.value))
  {
    if p.Json? && p.doc.ConfigDoc? then Ok(p.doc.config) else Err(UnmarshalError)
  }

  /** `json.Unmarshal` into an index; empty or foreign data fails. */
  function UnmarshalIndex(p: Payload): (r: Result<Index>)
    ensures r.Ok? <==> p.Json? && p.doc.IndexDoc?
    ensures r.Ok? ==> p == Json(IndexDoc(r.value))
  {
    if p.Json? && p.doc.IndexDoc? then Ok(p.doc.index) else Err(UnmarshalError)
  }

  /** What a failed read leaves behind: no bytes. */
  const NoData := Raw([])

  /** Decoding the data of a failed read fails. */
  lemma NoDataDoesNotDecode()
    ensures UnmarshalConfig(NoData).Err? && UnmarshalIndex(NoData).Err? && UnmarshalFields(NoData).Err?
  {
  }
}
