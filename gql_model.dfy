/** The GraphQL API model: the generated enums with their codecs and the
    records the resolvers exchange with clients.

    A Go enum of this package is a named `string` type, so a value of it can
    hold any string; only `IsValid` tells the declared constants apart.  The
    model therefore keeps enum values as plain strings. */
module GqlModel {
  import opened Wrappers

  const ModelStatusNotDeployed := "NOT_DEPLOYED"
  const ModelStatusDeploying := "DEPLOYING"
  const ModelStatusReady := "READY"
  const ModelStatusError := "ERROR"

  const ModelTypeHuggingface := "HUGGINGFACE"
  const ModelTypeOpenai := "OPENAI"
  const ModelTypeExternal := "EXTERNAL"

  const PipelineExecutionStatusActive := "ACTIVE"
  const PipelineExecutionStatusSucceeded := "SUCCEEDED"
  const PipelineExecutionStatusFailed := "FAILED"
  const PipelineExecutionStatusPending := "PENDING"

  const PipelineStatusNotDeployed := "NOT_DEPLOYED"
  const PipelineStatusDeploying := "DEPLOYING"
  const PipelineStatusReady := "READY"
  const PipelineStatusError := "ERROR"

  const PipelineTypeRepositoryEmbeddings := "REPOSITORY_EMBEDDINGS"

  const RepositoryTypeGithub := "GITHUB"
  const RepositoryTypeGitlab := "GITLAB"
  const RepositoryTypeBitbucket := "BITBUCKET"

  const StorageStatusNotDeployed := "NOT_DEPLOYED"
  const StorageStatusDeploying := "DEPLOYING"
  const StorageStatusReady := "READY"
  const StorageStatusError := "ERROR"

  const StorageTypeRedis := "REDIS"
  const StorageTypePostgres := "POSTGRES"
  const StorageTypeElasticsearch := "ELASTICSEARCH"

  /** The eight generated enum types. */
  datatype EnumKind =
    | ModelStatus | ModelType | PipelineExecutionStatus | PipelineStatus
    | PipelineType | RepositoryType | StorageStatus | StorageType

  /** The Go type name, used in the "is not a valid" message. */
  function TypeName(k: EnumKind): string
  {
    match k
    case ModelStatus => "ModelStatus"
    case ModelType => "ModelType"
    case PipelineExecutionStatus => "PipelineExecutionStatus"
    case PipelineStatus => "PipelineStatus"
    case PipelineType => "PipelineType"
    case RepositoryType => "RepositoryType"
    case StorageStatus => "StorageStatus"
    case StorageType => "StorageType"
  }

  /** The `IsValid` switch of each enum type. */
  predicate IsValid(k: EnumKind, e: string)
  {
    match k
    case ModelStatus =>
      e == ModelStatusNotDeployed || e == ModelStatusDeploying || e == ModelStatusReady || e == ModelStatusError
    case ModelType =>
      e == ModelTypeHuggingface || e == ModelTypeOpenai || e == ModelTypeExternal
    case PipelineExecutionStatus =>
      e == PipelineExecutionStatusActive || e == PipelineExecutionStatusSucceeded
      || e == PipelineExecutionStatusFailed || e == PipelineExecutionStatusPending
    case PipelineStatus =>
      e == PipelineStatusNotDeployed || e == PipelineStatusDeploying || e == PipelineStatusReady || e == PipelineStatusError
    case PipelineType =>
      e == PipelineTypeRepositoryEmbeddings
    case RepositoryType =>
      e == RepositoryTypeGithub || e == RepositoryTypeGitlab || e == RepositoryTypeBitbucket
    case StorageStatus =>
      e == StorageStatusNotDeployed || e == StorageStatusDeploying || e == StorageStatusReady || e == StorageStatusError
    case StorageType =>
      e == StorageTypeRedis || e == StorageTypePostgres || e == StorageTypeElasticsearch
  }

  predicate Distinct(vs: seq<string>)
  {
    forall i, j :: 0 <= i < j < |vs| ==> vs[i] != vs[j]
  }

  /** The `All*` lists: exactly the valid values, each once. */
  function All(k: EnumKind): (vs: seq<string>)
    ensures forall e :: IsValid(k, e) <==> e in vs
    ensures Distinct(vs)
  {
    match k
    case ModelStatus => [ModelStatusNotDeployed, ModelStatusDeploying, ModelStatusReady, ModelStatusError]
    case ModelType => [ModelTypeHuggingface, ModelTypeOpenai, ModelTypeExternal]
    case PipelineExecutionStatus =>
      [PipelineExecutionStatusActive, PipelineExecutionStatusSucceeded, PipelineExecutionStatusFailed, PipelineExecutionStatusPending]
    case PipelineStatus => [PipelineStatusNotDeployed, PipelineStatusDeploying, PipelineStatusReady, PipelineStatusError]
    case PipelineType => [PipelineTypeRepositoryEmbeddings]
    case RepositoryType => [RepositoryTypeGithub, RepositoryTypeGitlab, RepositoryTypeBitbucket]
    case StorageStatus => [StorageStatusNotDeployed, StorageStatusDeploying, StorageStatusReady, StorageStatusError]
    case StorageType => [StorageTypeRedis, StorageTypePostgres, StorageTypeElasticsearch]
  }

  /** The dynamic value gqlgen hands to `UnmarshalGQL` (an `interface{}`). */
  datatype GqlInput = StringInput(s: string) | NonStringInput

  /** `(*e).UnmarshalGQL(v)`: the first component is the receiver afterwards,
      the second the returned error. */
  function UnmarshalGQL(k: EnumKind, receiver: string, v: GqlInput): (r: (string, Outcome))
    ensures v.NonStringInput? ==> r == (receiver, Fail(Message("enums must be strings")))
    ensures v.StringInput? ==> r.0 == v.s && (r.1.Pass? <==> IsValid(k, v.s))
    ensures v.StringInput? && !IsValid(k, v.s) ==>
              r.1 == Fail(Message(v.s + " is not a valid " + TypeName(k)))
  {
    match v
    case NonStringInput => (receiver, Fail(Message("enums must be strings")))
    case StringInput(str) =>
      if IsValid(k, str) then (str, Pass)
      else (str, Fail(Message(str + " is not a valid " + TypeName(k))))
  }

  /** `strconv.IsPrint`.  It is exact for the Latin-1 range, which Go
      decides without its tables: printable ASCII, and U+00A1 to U+00FF
      except the soft hyphen.  Above U+00FF only the line and paragraph
      separators and the private-use areas count as not printable here;
      Go's tables also exclude unassigned code points and the other format
      and space characters. */
  predicate IsPrint(c: char)
  {
    var r := c as int;
    if r <= 0xFF then (0x20 <= r <= 0x7E) || (0xA1 <= r && r != 0xAD)
    else !(r == 0x2028 || r == 0x2029 || 0xE000 <= r <= 0xF8FF || 0xF0000 <= r)
  }

  /** The lower-case hex digit of `d`. */
  function HexDigit(d: nat): (c: char)
    requires d < 16
    ensures '0' <= c <= '9' || 'a' <= c <= 'f'
  {
    if d < 10 then ('0' as int + d) as char else ('a' as int + d - 10) as char
  }

  /** `n` as `width` lower-case hex digits, most significant first. */
  function Hex(n: nat, width: nat): (h: string)
    ensures |h| == width
    ensures forall k :: 0 <= k < width ==> '0' <= h[k] <= '9' || 'a' <= h[k] <= 'f'
  {
    if width == 0 then "" else Hex(n / 16, width - 1) + [HexDigit(n % 16)]
  }

  function HexDigitValue(c: char): Option<nat>
  {
    if '0' <= c <= '9' then Some(c as int - '0' as int)
    else if 'a' <= c <= 'f' then Some(c as int - 'a' as int + 10)
    else if 'A' <= c <= 'F' then Some(c as int - 'A' as int + 10)
    else None
  }

  /** The number a run of hex digits denotes, `None` if any is not one. */
  function HexValue(s: string): Option<nat>
  {
    if s == [] then Some(0)
    else match (HexValue(s[..|s| - 1]), HexDigitValue(s[|s| - 1]))
      case (Some(high), Some(low)) => Some(high * 16 + low)
      case _ => None
  }

  function Pow16(width: nat): (p: nat)
    ensures p >= 1
  {
    if width == 0 then 1 else 16 * Pow16(width - 1)
  }

  lemma DivBound(n: nat, p: nat)
    requires n < 16 * p
    ensures n / 16 < p && n == n / 16 * 16 + n % 16
  {
  }

  lemma {:induction false} HexValueOfHex(n: nat, width: nat)
    requires n < Pow16(width)
    ensures HexValue(Hex(n, width)) == Some(n)
  {
    if width > 0 {
      var h := Hex(n, width);
      var high, low := n / 16, n % 16;
      DivBound(n, Pow16(width - 1));
      HexValueOfHex(high, width - 1);
      assert h[..width - 1] == Hex(high, width - 1);
      assert h[width - 1] == HexDigit(low);
      assert HexDigitValue(HexDigit(low)) == Some(low);
      assert HexValue(h) == Some(high * 16 + low);
    }
  }

  /** The escape `strconv.Quote` writes for one character: a backslash
      before `"` and `\`, the character itself when printable, a letter
      escape for the seven control characters that have one, `\x` with two
      hex digits for the other ASCII controls and DEL, and `\u` or `\U`
      with four or eight hex digits for everything else. */
  function EscapeChar(c: char): (e: string)
    ensures |e| >= 1
  {
    var r := c as int;
    if c == '"' || c == '\\' then ['\\', c]
    else if IsPrint(c) then [c]
    else if r == 7 then "\\a"
    else if r == 8 then "\\b"
    else if r == 12 then "\\f"
    else if c == '\n' then "\\n"
    else if c == '\r' then "\\r"
    else if c == '\t' then "\\t"
    else if r == 11 then "\\v"
    else if r < 0x20 || r == 0x7F then "\\x" + Hex(r, 2)
    else if r < 0x10000 then "\\u" + Hex(r, 4)
    else "\\U" + Hex(r, 8)
  }

  /** The character a letter escape stands for. */
  function LetterEscape(e: char): Option<char>
  {
    if e == 'a' then Some(7 as char)
    else if e == 'b' then Some(8 as char)
    else if e == 'f' then Some(12 as char)
    else if e == 'n' then Some('\n')
    else if e == 'r' then Some('\r')
    else if e == 't' then Some('\t')
    else if e == 'v' then Some(11 as char)
    else if e == '\\' then Some('\\')
    else if e == '"' then Some('"')
    else None
  }

  predicate IsScalar(n: nat)
  {
    n < 0xD800 || 0xE000 <= n < 0x110000
  }

  /** The character of a hex escape with `width` digits after its two-
      character introducer, if the digits are there and name a character. */
  function HexEscape(s: string, width: nat, limit: nat): Option<(char, nat)>
  {
    if |s| < 2 + width then None
    else match HexValue(s[2..2 + width])
      case Some(v) => if v < limit && IsScalar(v) then Some((v as char, 2 + width)) else None
      case None => None
  }

  /** The first character of a quoted body and how many characters of it
      spell that character.  A bare `"` or newline ends the literal, and a
      `\x` escape of 0x80 or more denotes a byte, not a character; those
      are refused, as is an unknown escape.  Octal escapes, which `Quote`
      never writes, are not read. */
  function UnescapeUnit(s: string): (u: Option<(char, nat)>)
    requires s != []
    ensures u.Some? ==> 1 <= u.value.1 <= |s|
  {
    if s[0] == '"' || s[0] == '\n' then None
    else if s[0] != '\\' then Some((s[0], 1))
    else if |s| < 2 then None
    else if s[1] == 'x' then HexEscape(s, 2, 0x80)
    else if s[1] == 'u' then HexEscape(s, 4, 0x10000)
    else if s[1] == 'U' then HexEscape(s, 8, 0x110000)
    else match LetterEscape(s[1])
      case Some(c) => Some((c, 2))
      case None => None
  }

  /** The body of `strconv.Quote(s)` without the surrounding quotes. */
  function Escape(s: string): string
  {
    if s == [] then "" else EscapeChar(s[0]) + Escape(s[1..])
  }

  /** Reads back an escaped body, one escape at a time. */
  function Unescape(s: string): Option<string>
    decreases |s|
  {
    if s == [] then Some("")
    else match UnescapeUnit(s)
      case None => None
      case Some((c, n)) => match Unescape(s[n..])
        case None => None
        case Some(rest) => Some([c] + rest)
  }

  lemma HexEscapeOf(c: char, tag: char, width: nat, rest: string)
    requires c as int < Pow16(width)
    ensures var s := ['\\', tag] + Hex(c as int, width) + rest;
      HexEscape(s, width, Pow16(width)) == Some((c, 2 + width))
  {
    var s := ['\\', tag] + Hex(c as int, width) + rest;
    assert s[2..2 + width] == Hex(c as int, width);
    HexValueOfHex(c as int, width);
  }

  /** Each escape reads back as its own character, whatever follows it. */
  lemma UnescapeEscapeChar(c: char, rest: string)
    ensures UnescapeUnit(EscapeChar(c) + rest) == Some((c, |EscapeChar(c)|))
  {
    var r := c as int;
    if c == '"' || c == '\\' || IsPrint(c) {
      UnescapePlainChar(c, rest);
    } else if r in {7, 8, 9, 10, 11, 12, 13} {
      UnescapeLetterChar(c, rest);
    } else {
      UnescapeHexChar(c, rest);
    }
  }

  lemma UnescapePlainChar(c: char, rest: string)
    requires c == '"' || c == '\\' || IsPrint(c)
    ensures UnescapeUnit(EscapeChar(c) + rest) == Some((c, |EscapeChar(c)|))
  {
  }

  lemma UnescapeLetterChar(c: char, rest: string)
    requires !(c == '"' || c == '\\' || IsPrint(c)) && c as int in {7, 8, 9, 10, 11, 12, 13}
    ensures UnescapeUnit(EscapeChar(c) + rest) == Some((c, |EscapeChar(c)|))
  {
  }

  lemma UnescapeHexChar(c: char, rest: string)
    requires !(c == '"' || c == '\\' || IsPrint(c)) && !(c as int in {7, 8, 9, 10, 11, 12, 13})
    ensures UnescapeUnit(EscapeChar(c) + rest) == Some((c, |EscapeChar(c)|))
  {
    var r := c as int;
    var s := EscapeChar(c) + rest;
    if r < 0x20 || r == 0x7F {
      assert EscapeChar(c) == "\\x" + Hex(r, 2);
      assert Pow16(2) == 0x100;
      HexEscapeOf(c, 'x', 2, rest);
      assert s == ['\\', 'x'] + Hex(r, 2) + rest;
    } else if r < 0x10000 {
      assert EscapeChar(c) == "\\u" + Hex(r, 4);
      assert Pow16(4) == 0x10000;
      HexEscapeOf(c, 'u', 4, rest);
      assert s == ['\\', 'u'] + Hex(r, 4) + rest;
    } else {
      assert EscapeChar(c) == "\\U" + Hex(r, 8);
      assert Pow16(8) == 0x1_0000_0000;
      HexEscapeOf(c, 'U', 8, rest);
      assert s == ['\\', 'U'] + Hex(r, 8) + rest;
      assert HexEscape(s, 8, 0x110000) == HexEscape(s, 8, Pow16(8));
    }
  }

  lemma {:induction false} UnescapeEscape(s: string)
    ensures Unescape(Escape(s)) == Some(s)
  {
    if s != [] {
      UnescapeEscape(s[1..]);
      var e := Escape(s);
      UnescapeEscapeChar(s[0], Escape(s[1..]));
      assert e[|EscapeChar(s[0])|..] == Escape(s[1..]);
      assert s == [s[0]] + s[1..];
    }
  }

  /** A string of printable characters other than `"` and `\` is quoted as
      itself. */
  lemma {:induction false} EscapePlain(s: string)
    requires forall k :: 0 <= k < |s| ==> IsPrint(s[k]) && s[k] != '"' && s[k] != '\\'
    ensures Escape(s) == s
  {
    if s != [] {
      EscapePlain(s[1..]);
    }
  }

  lemma EscapeCharIsPrintable(c: char)
    ensures forall k :: 0 <= k < |EscapeChar(c)| ==> IsPrint(EscapeChar(c)[k])
  {
    var e := EscapeChar(c);
    var r := c as int;
    if !(c == '"' || c == '\\' || IsPrint(c)) && !(r in {7, 8, 9, 10, 11, 12, 13}) {
      var w := if r < 0x20 || r == 0x7F then 2 else if r < 0x10000 then 4 else 8;
      var h := Hex(r, w);
      assert e == e[..2] + h;
      forall k | 0 <= k < |e| ensures IsPrint(e[k]) {
        if k >= 2 {
          assert e[k] == h[k - 2];
        }
      }
    }
  }

  /** `strconv.Quote` writes printable characters only: every control and
      non-printable character leaves as an escape. */
  lemma {:induction false} EscapeIsPrintable(s: string)
    ensures forall k :: 0 <= k < |Escape(s)| ==> IsPrint(Escape(s)[k])
  {
    if s != [] {
      EscapeIsPrintable(s[1..]);
      EscapeCharIsPrintable(s[0]);
      var e := EscapeChar(s[0]);
      var tail := Escape(s[1..]);
      assert Escape(s) == e + tail;
      forall k | 0 <= k < |e| + |tail| ensures IsPrint((e + tail)[k]) {
        if k < |e| {
          assert (e + tail)[k] == e[k];
        } else {
          assert (e + tail)[k] == tail[k - |e|];
        }
      }
    }
  }

  function Quote(s: string): (q: string)
  {
    "\"" + Escape(s) + "\""
  }

  /** `strconv.Unquote` of a double-quoted literal. */
  function Unquote(q: string): Option<string>
  {
    if |q| >= 2 && q[0] == '"' && q[|q| - 1] == '"' then Unescape(q[1..|q| - 1]) else None
  }

  lemma UnquoteQuote(s: string)
    ensures Unquote(Quote(s)) == Some(s)
  {
    var q := Quote(s);
    assert q[1..|q| - 1] == Escape(s);
    UnescapeEscape(s);
  }

  /** A quoted string holds printable characters only. */
  lemma QuoteIsPrintable(s: string)
    ensures forall k :: 0 <= k < |Quote(s)| ==> IsPrint(Quote(s)[k])
  {
    EscapeIsPrintable(s);
    var q := Quote(s);
    assert forall k :: 1 <= k < |q| - 1 ==> q[k] == Escape(s)[k - 1];
  }

  /** `MarshalGQL`: the quoted `String()`, which is the enum's own string. */
  function MarshalGQL(e: string): (w: string)
    ensures Unquote(w) == Some(e)
    ensures |w| >= 2 && w[0] == '"' && w[|w| - 1] == '"'
    ensures forall k :: 0 <= k < |w| ==> IsPrint(w[k])
  {
    UnquoteQuote(e);
    QuoteIsPrintable(e);
    Quote(e)
  }

  /** A receiver `UnmarshalGQL` stored from an invalid string is written
      with Go's escapes: a bell as `\a`, a vertical tab as `\v`, DEL as
      `\x7f`. */
  lemma ControlCharactersAreEscaped()
    ensures MarshalGQL([7 as char]) == "\"\\a\""
    ensures MarshalGQL([11 as char]) == "\"\\v\""
    ensures MarshalGQL([0x7F as char]) == "\"\\x7f\""
  {
    EscapeOne(7 as char);
    EscapeOne(11 as char);
    EscapeOne(0x7F as char);
    assert Hex(0, 0) == "";
    assert HexDigit(7) == '7' && HexDigit(15) == 'f';
    assert Hex(7, 1) == "7";
    assert Hex(0x7F, 2) == Hex(7, 1) + [HexDigit(15)];
  }

  lemma EscapeOne(c: char)
    ensures MarshalGQL([c]) == "\"" + EscapeChar(c) + "\""
  {
    assert [c][1..] == [];
    assert Escape([c]) == EscapeChar(c) + Escape([]);
    assert EscapeChar(c) + "" == EscapeChar(c);
    assert MarshalGQL([c]) == Quote([c]);
  }

  /** A declared constant is written between quotes exactly as declared, and
      reading it back with `UnmarshalGQL` gives the same value and no error. */
  lemma EnumRoundTrip(k: EnumKind, e: string, receiver: string)
    requires IsValid(k, e)
    ensures MarshalGQL(e) == "\"" + e + "\""
    ensures UnmarshalGQL(k, receiver, StringInput(Unquote(MarshalGQL(e)).value)) == (e, Pass)
  {
    ValidIsUpper(k, e);
    EscapePlain(e);
  }

  /** Every declared constant is made of capital letters and underscores. */
  lemma ValidIsUpper(k: EnumKind, e: string)
    requires IsValid(k, e)
    ensures forall i :: 0 <= i < |e| ==> 'A' <= e[i] <= 'Z' || e[i] == '_'
  {
    match k
    case ModelStatus =>
    case ModelType =>
    case PipelineExecutionStatus =>
    case PipelineStatus =>
    case PipelineType =>
    case RepositoryType =>
    case StorageStatus =>
    case StorageType =>
  }

  // Records of the API.

  datatype HuggingFace = HuggingFace(organization: string, name: string, maxSequenceLength: int)
  datatype ModelDeployment = ModelDeployment(enabled: bool, cpu: string, memory: string)
  datatype Model = Model(
    id: string, typ: string, displayName: string, status: string,
    huggingFace: Option<HuggingFace>, deployment: Option<ModelDeployment>)

  datatype RepositoryEmbeddings = RepositoryEmbeddings(repositoryId: string, modelId: string, storageId: string)
  datatype Pipeline = Pipeline(
    id: string, name: string, typ: string, enabled: bool, status: string,
    repositoryEmbeddings: Option<RepositoryEmbeddings>)
  datatype PipelineExecution = PipelineExecution(id: string, status: string)

  datatype Repository = Repository(
    id: string, typ: string, displayName: string, owner: string, name: string, url: string)

  datatype StorageDeployment = StorageDeployment(enabled: bool, cpu: string, memory: string)
  datatype Storage = Storage(
    id: string, name: string, typ: string, status: string, deployment: Option<StorageDeployment>)

  /** A search hit; the float `Score` is not part of the model. */
  datatype SearchResult = SearchResult(
    id: string, chunkId: int, content: string, hash: string, path: string,
    owner: string, repo: string, startIndex: int, endIndex: int, startLine: int)

  datatype QueryInput = QueryInput(query: string, page: Option<int>, limit: Option<int>)

  datatype HuggingFaceInput = HuggingFaceInput(organization: string, name: string, maxSequenceLength: int)
  datatype AddModelInput = AddModelInput(typ: string, huggingFace: Option<HuggingFaceInput>)

  datatype AddRepositoryEmbeddingsInput = AddRepositoryEmbeddingsInput(repositoryId: string, modelId: string, storageId: string)
  datatype AddPipelineInput = AddPipelineInput(
    typ: string, name: string, repositoryEmbeddings: Option<AddRepositoryEmbeddingsInput>)

  /** Every field is an optional pointer; `branch` is read by the resolver
      although the generated struct shown does not declare it. */
  datatype AddRepositoryInput = AddRepositoryInput(
    url: Option<string>, token: Option<string>, typ: Option<string>,
    owner: Option<string>, name: Option<string>, branch: Option<string>)

  /** The Postgres connection settings; `postgres` of `AddStorageInput` is read
      by the converter although the generated struct shown does not declare it. */
  datatype PostgresInput = PostgresInput(
    host: string, port: int, database: string, username: string, password: string,
    sslMode: string, timezone: string, external: bool)
  datatype AddStorageInput = AddStorageInput(typ: string, name: string, postgres: Option<PostgresInput>)
}
