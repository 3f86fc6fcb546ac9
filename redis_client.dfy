/** The Redis server as the go-git Redis backend uses it through a go-redis
    client: one keyspace of string and set values, and SCAN, which walks the
    keyspace in an order of its own, a batch per cursor, and filters each
    batch by a MATCH pattern.  A lost connection makes every command fail. */
module RedisClient {
  import opened Wrappers
  import opened Strings
  import opened GitPlumbing

  /** A Redis key: one the stores build with `withNamespace(prefix, kind,
      name)`, which is taken to be injective, or a literal key such as
      "modules". */
  datatype Key = Ns(prefix: string, kind: string, name: string) | Plain(text: string)

  /** What a key holds: a string value or a set of strings. */
  datatype Value = Str(payload: Payload) | Members(members: set<string>)

  /** A SCAN MATCH pattern `withNamespace(prefix, kind, namePrefix + "*" +
      nameSuffix)`: the wildcard stands for any text of the name part. */
  datatype Pattern = Pattern(prefix: string, kind: string, namePrefix: string, nameSuffix: string)

  predicate Matches(k: Key, p: Pattern)
  {
    k.Ns? && k.prefix == p.prefix && k.kind == p.kind
    && |p.namePrefix| + |p.nameSuffix| <= |k.name|
    && StartsWith(k.name, p.namePrefix) && EndsWith(k.name, p.nameSuffix)
  }

  /** `redis.Nil`: the reply to a GET of a missing key. */
  const ErrNil := Message("redis: nil")
  const ErrWrongType := Message("WRONGTYPE Operation against a key holding the wrong kind of value")
  const ErrSAddArity := Message("ERR wrong number of arguments for 'sadd' command")
  /** Any failure of the connection to the server. */
  const ErrConnection := Foreign("redis")
  /** The byte encoding of a JSON document, which the model does not spell
      out. */
  const ErrEncoding := Foreign("json encoding")

  /** The bytes of a stored string. */
  function Bytes(p: Payload): (r: Result<seq<Byte>>)
    ensures r.Ok? <==> p.Raw?
    ensures r.Ok? ==> r.value == p.bytes
  {
    if p.Raw? then Ok(p.bytes) else Err(ErrEncoding)
  }

  /** The keys of a sequence of batches, in order. */
  function Flatten(batches: seq<seq<Key>>): seq<Key>
  {
    if batches == [] then [] else Flatten(batches[..|batches| - 1]) + batches[|batches| - 1]
  }

  /** The keys of `keys`, in order, that are stored and match `p`: what one
      SCAN call returns of the part of the keyspace it walks. */
  function Filter(keys: seq<Key>, p: Pattern, data: map<Key, Value>): (r: seq<Key>)
    ensures forall k :: k in r <==> k in keys && k in data && Matches(k, p)
    ensures |r| <= |keys|
  {
    if keys == [] then []
    else
      var rest := Filter(keys[1..], p, data);
      if keys[0] in data && Matches(keys[0], p) then [keys[0]] + rest else rest
  }

  lemma {:induction false} FilterAppend(a: seq<Key>, b: seq<Key>, p: Pattern, data: map<Key, Value>)
    ensures Filter(a + b, p, data) == Filter(a, p, data) + Filter(b, p, data)
  {
    if a != [] {
      assert (a + b)[0] == a[0] && (a + b)[1..] == a[1..] + b;
      FilterAppend(a[1..], b, p, data);
    } else {
      assert a + b == b;
    }
  }

  predicate Distinct(s: seq<Key>)
  {
    forall i, j :: 0 <= i < j < |s| ==> s[i] != s[j]
  }

  /** The server state: the keyspace, the order in which SCAN walks it (a
      batch per cursor value) and whether the connection is up. */
  datatype Db = Db(data: map<Key, Value>, layout: seq<seq<Key>>, offline: bool)
  {
    /** SCAN walks every stored key exactly once. */
    predicate ValidLayout()
    {
      (forall k :: k in data ==> k in Flatten(layout)) && Distinct(Flatten(layout))
    }

    /** GET: the string at `key`; a missing key is `redis.Nil`. */
    function Get(key: Key): (r: Result<Payload>)
      ensures !offline && key in data && data[key].Str? <==> r.Ok?
      ensures r.Ok? ==> r.value == data[key].payload
      ensures !offline && key !in data ==> r == Err(ErrNil)
    {
      if offline then Err(ErrConnection)
      else if key !in data then Err(ErrNil)
      else if data[key].Members? then Err(ErrWrongType)
      else Ok(data[key].payload)
    }

    /** The layout once `key` exists: a new key is walked last. */
    function LayoutWith(key: Key): seq<seq<Key>>
    {
      if key in Flatten(layout) then layout else layout + [[key]]
    }

    /** SET: `key` holds `p`, whatever it held before. */
    function Set(key: Key, p: Payload): (r: (Outcome, Db))
      ensures r.0.Pass? <==> !offline
      ensures r.0.Fail? ==> r.0.error == ErrConnection && r.1 == this
      ensures r.0.Pass? ==> r.1.data == data[key := Str(p)] && r.1.offline == offline
    {
      if offline then (Fail(ErrConnection), this)
      else (Pass, Db(data[key := Str(p)], LayoutWith(key), offline))
    }

    /** SADD: the members are added to the set at `key`; a call without
        members is refused by the server. */
    function SAdd(key: Key, members: seq<string>): (r: (Outcome, Db))
      ensures r.0.Pass? <==> !offline && members != [] && (key in data ==> data[key].Members?)
      ensures r.0.Fail? ==> r.1 == this
      ensures r.0.Pass? ==>
        var old_ := if key in data then data[key].members else {};
        r.1.data == data[key := Members(old_ + set m | m in members)] && r.1.offline == offline
    {
      if offline then (Fail(ErrConnection), this)
      else if members == [] then (Fail(ErrSAddArity), this)
      else if key in data && data[key].Str? then (Fail(ErrWrongType), this)
      else
        var old_ := if key in data then data[key].members else {};
        (Pass, Db(data[key := Members(old_ + set m | m in members)], LayoutWith(key), offline))
    }

    /** The members of the set at `key`; a missing key is an empty set. */
    function SMembers(key: Key): (r: Result<set<string>>)
      ensures r.Ok? <==> !offline && (key in data ==> data[key].Members?)
      ensures r.Ok? ==> r.value == (if key in data then data[key].members else {})
    {
      if offline then Err(ErrConnection)
      else if key !in data then Ok({})
      else if data[key].Str? then Err(ErrWrongType)
      else Ok(data[key].members)
    }

    /** SISMEMBER. */
    function SIsMember(key: Key, member: string): (r: Result<bool>)
      ensures r.Ok? <==> SMembers(key).Ok?
      ensures r.Ok? ==> (r.value <==> member in SMembers(key).value)
    {
      match SMembers(key)
      case Err(e) => Err(e)
      case Ok(members) => Ok(member in members)
    }

    /** STRLEN: the length of the string at `key`, 0 for a missing key. */
    function StrLen(key: Key): (r: Result<nat>)
      ensures !offline && key !in data ==> r == Ok(0)
      ensures !offline && key in data && data[key].Str? && data[key].payload.Raw? ==>
                r == Ok(|data[key].payload.bytes|)
      ensures offline ==> r == Err(ErrConnection)
    {
      if offline then Err(ErrConnection)
      else if key !in data then Ok(0)
      else if data[key].Members? then Err(ErrWrongType)
      else match Bytes(data[key].payload)
        case Err(e) => Err(e)
        case Ok(b) => Ok(|b|)
    }

    /** SCAN: the matching keys of the batch at `cursor`, and the cursor of
        the next batch, 0 after the last one. */
    function Scan(cursor: nat, p: Pattern): (r: Result<(seq<Key>, nat)>)
      ensures r.Ok? <==> !offline
      ensures r.Ok? && cursor < |layout| ==> r.value.0 == Filter(layout[cursor], p, data)
      ensures r.Ok? && cursor >= |layout| ==> r.value == ([], 0)
      ensures r.Ok? ==> r.value.1 == 0 || (cursor < r.value.1 < |layout| && r.value.1 == cursor + 1)
    {
      if offline then Err(ErrConnection)
      else if cursor < |layout| then
        Ok((Filter(layout[cursor], p, data), if cursor + 1 < |layout| then cursor + 1 else 0))
      else Ok(([], 0))
    }

    /** The matching keys of a whole SCAN, in the order it returns them. */
    function ScanAll(p: Pattern): seq<Key>
    {
      Filter(Flatten(layout), p, data)
    }

    /** The stored keys matching `p`. */
    function MatchingKeys(p: Pattern): set<Key>
    {
      set k | k in data && Matches(k, p)
    }
  }

  lemma {:induction false} FlattenMember(batches: seq<seq<Key>>, k: Key)
    ensures k in Flatten(batches) <==> exists i :: 0 <= i < |batches| && k in batches[i]
  {
    if batches != [] {
      var n := |batches| - 1;
      FlattenMember(batches[..n], k);
      if k in Flatten(batches[..n]) {
        var i :| 0 <= i < n && k in batches[..n][i];
        assert k in batches[i];
      }
      if exists i :: 0 <= i < |batches| && k in batches[i] {
        var i :| 0 <= i < |batches| && k in batches[i];
        if i < n { assert k in batches[..n][i]; }
      }
    }
  }

  lemma FlattenAppend(batches: seq<seq<Key>>, b: seq<Key>)
    ensures Flatten(batches + [b]) == Flatten(batches) + b
  {
    assert (batches + [b])[..|batches|] == batches;
  }

  /** A SET or SADD keeps SCAN walking every key exactly once. */
  lemma SetKeepsLayoutValid(db: Db, key: Key, p: Payload)
    requires db.ValidLayout()
    ensures db.Set(key, p).1.ValidLayout()
  {
    LayoutWithValid(db, key, db.data[key := Str(p)]);
  }

  /** A second SADD of the same members changes nothing. */
  lemma SAddIdempotent(db: Db, key: Key, members: seq<string>)
    ensures var once := db.SAdd(key, members).1;
      once.SAdd(key, members).1.data == once.data && once.SAdd(key, members).1.layout == once.layout
  {
    var once := db.SAdd(key, members).1;
    if db.SAdd(key, members).0.Pass? {
      if key !in Flatten(db.layout) {
        FlattenAppend(db.layout, [key]);
      }
      assert key in Flatten(once.layout);
      var m := set x | x in members;
      var old_ := if key in db.data then db.data[key].members else {};
      assert once.data[key].members + m == old_ + m;
      assert once.data[key := Members(old_ + m)] == once.data;
    }
  }

  lemma SAddKeepsLayoutValid(db: Db, key: Key, members: seq<string>)
    requires db.ValidLayout()
    ensures db.SAdd(key, members).1.ValidLayout()
  {
    if db.SAdd(key, members).0.Pass? {
      LayoutWithValid(db, key, db.SAdd(key, members).1.data);
    }
  }

  lemma LayoutWithValid(db: Db, key: Key, data: map<Key, Value>)
    requires db.ValidLayout()
    requires data.Keys == db.data.Keys + {key}
    ensures Db(data, db.LayoutWith(key), db.offline).ValidLayout()
  {
    var layout := db.LayoutWith(key);
    if key !in Flatten(db.layout) {
      FlattenAppend(db.layout, [key]);
      var f := Flatten(layout);
      assert f == Flatten(db.layout) + [key];
      forall i, j | 0 <= i < j < |f| ensures f[i] != f[j] {
        if j == |f| - 1 {
          assert f[i] in Flatten(db.layout);
        }
      }
    }
  }

  /** The keys a SCAN returns before the batch at `cursor`. */
  function ScannedBefore(db: Db, p: Pattern, cursor: nat): seq<Key>
    requires cursor <= |db.layout|
  {
    Filter(Flatten(db.layout[..cursor]), p, db.data)
  }

  /** One more batch. */
  lemma ScannedStep(db: Db, p: Pattern, cursor: nat)
    requires cursor < |db.layout|
    ensures ScannedBefore(db, p, cursor + 1) == ScannedBefore(db, p, cursor) + Filter(db.layout[cursor], p, db.data)
  {
    assert db.layout[..cursor + 1] == db.layout[..cursor] + [db.layout[cursor]];
    FlattenAppend(db.layout[..cursor], db.layout[cursor]);
    FilterAppend(Flatten(db.layout[..cursor]), db.layout[cursor], p, db.data);
  }

  lemma {:induction false} DistinctCard(s: seq<Key>)
    requires Distinct(s)
    ensures |set k | k in s| == |s|
  {
    if s != [] {
      var rest := s[1..];
      assert Distinct(rest) by {
        forall i, j | 0 <= i < j < |rest| ensures rest[i] != rest[j] {
          assert rest[i] == s[i + 1] && rest[j] == s[j + 1];
        }
      }
      DistinctCard(rest);
      assert s[0] !in rest by {
        forall i | 0 <= i < |rest| ensures rest[i] != s[0] {
          assert rest[i] == s[i + 1];
        }
      }
      assert (set k | k in s) == (set k | k in rest) + {s[0]} by {
        assert s == [s[0]] + rest;
      }
    }
  }

  lemma {:induction false} FilterDistinct(keys: seq<Key>, p: Pattern, data: map<Key, Value>)
    requires Distinct(keys)
    ensures Distinct(Filter(keys, p, data))
  {
    if keys != [] {
      var rest := keys[1..];
      assert Distinct(rest) by {
        forall i, j | 0 <= i < j < |rest| ensures rest[i] != rest[j] {
          assert rest[i] == keys[i + 1] && rest[j] == keys[j + 1];
        }
      }
      FilterDistinct(rest, p, data);
      assert keys[0] !in rest by {
        forall i | 0 <= i < |rest| ensures rest[i] != keys[0] {
          assert rest[i] == keys[i + 1];
        }
      }
    }
  }

  /** Over a valid layout, a whole SCAN returns each matching key exactly
      once, and nothing else. */
  lemma ScanAllIsMatchingKeys(db: Db, p: Pattern)
    requires db.ValidLayout()
    ensures Distinct(db.ScanAll(p))
    ensures (set k | k in db.ScanAll(p)) == db.MatchingKeys(p)
    ensures |db.ScanAll(p)| == |db.MatchingKeys(p)|
  {
    FilterDistinct(Flatten(db.layout), p, db.data);
    DistinctCard(db.ScanAll(p));
  }

  /** The connection to the server, shared by every store of a backend. */
  class Client {
    var db: Db

    constructor(db: Db)
      ensures this.db == db
    {
      this.db := db;
    }

    method Get(key: Key) returns (r: Result<Payload>)
      ensures r == db.Get(key)
    {
      r := db.Get(key);
    }

    method Set(key: Key, p: Payload) returns (r: Outcome)
      modifies this
      ensures (r, db) == old(db).Set(key, p)
    {
      var (o, after) := db.Set(key, p);
      r, db := o, after;
    }

    method SAdd(key: Key, members: seq<string>) returns (r: Outcome)
      modifies this
      ensures (r, db) == old(db).SAdd(key, members)
    {
      var (o, after) := db.SAdd(key, members);
      r, db := o, after;
    }

    method SIsMember(key: Key, member: string) returns (r: Result<bool>)
      ensures r == db.SIsMember(key, member)
    {
      r := db.SIsMember(key, member);
    }

    /** SMEMBERS: the members, each once, in an order of the server's. */
    method SMembers(key: Key) returns (r: Result<seq<string>>)
      ensures r.Ok? <==> db.SMembers(key).Ok?
      ensures r.Ok? ==> (set m | m in r.value) == db.SMembers(key).value
      ensures r.Ok? ==> forall i, j :: 0 <= i < j < |r.value| ==> r.value[i] != r.value[j]
      ensures r.Err? ==> r.error == db.SMembers(key).error
    {
      var members := db.SMembers(key);
      if members.Err? {
        return Err(members.error);
      }
      var left := members.value;
      var listed: seq<string> := [];
      while left != {}
        invariant (set m | m in listed) + left == members.value
        invariant forall m :: m in listed ==> m !in left
        invariant forall i, j :: 0 <= i < j < |listed| ==> listed[i] != listed[j]
        decreases |left|
      {
        var m :| m in left;
        listed := listed + [m];
        left := left - {m};
      }
      r := Ok(listed);
    }

    method StrLen(key: Key) returns (r: Result<nat>)
      ensures r == db.StrLen(key)
    {
      r := db.StrLen(key);
    }

    method Scan(cursor: nat, p: Pattern) returns (r: Result<(seq<Key>, nat)>)
      ensures r == db.Scan(cursor, p)
    {
      r := db.Scan(cursor, p);
    }
  }
}
