/** The array operations the mock GraphQL server's resolvers apply to their
    module-level arrays: `find` and `findIndex` on the `id` field, `push`,
    `splice(index, 1)`, and the id `String(length + 1)` given to a new
    record.  The records are values here; an array is a `seq`. */
module MockArrays {
  import opened Wrappers
  import opened Strings

  /** `String(length + 1)`: the decimal digits of the number one past the
      array's length. */
  function NextId(length: nat): (id: string)
    ensures AllDigits(id) && DigitsValue(id) == length + 1
  {
    DigitsValueOfNat(length + 1);
    NatToDecimal(length + 1)
  }

  /** Two lengths give the same id only if they are equal. */
  lemma NextIdInjective(m: nat, n: nat)
    ensures NextId(m) == NextId(n) <==> m == n
  {
    if NextId(m) == NextId(n) {
      assert DigitsValue(NextId(m)) == DigitsValue(NextId(n));
    }
  }

  /** `findIndex(x => x.id === id)`: the first position holding the id, or
      -1 when no element does. */
  function FindIndex<T>(xs: seq<T>, id: string, idOf: T -> string): (i: int)
    ensures -1 <= i < |xs|
    ensures 0 <= i ==> idOf(xs[i]) == id && forall j :: 0 <= j < i ==> idOf(xs[j]) != id
    ensures i == -1 <==> forall j :: 0 <= j < |xs| ==> idOf(xs[j]) != id
    decreases |xs|
  {
    if xs == [] then -1
    else if idOf(xs[0]) == id then 0
    else
      var i := FindIndex(xs[1..], id, idOf);
      assert forall j :: 0 <= j < |xs| - 1 ==> xs[1..][j] == xs[j + 1];
      if i < 0 then -1 else i + 1
  }

  /** `find(x => x.id === id)` followed by the resolver's `throw` when
      nothing is found: the first element with the id, or `notFound`. */
  function Find<T>(xs: seq<T>, id: string, idOf: T -> string, notFound: Error): (r: Result<T>)
    ensures r.Err? <==> forall j :: 0 <= j < |xs| ==> idOf(xs[j]) != id
    ensures r.Err? ==> r.error == notFound
    ensures r.Ok? ==> (idOf(r.value) == id
      && exists i :: 0 <= i < |xs| && xs[i] == r.value && forall j :: 0 <= j < i ==> idOf(xs[j]) != id)
  {
    var i := FindIndex(xs, id, idOf);
    if i < 0 then Err(notFound) else Ok(xs[i])
  }

  /** `findIndex` then `splice(index, 1)`: the first element with the id is
      taken out and returned, and the others keep their order; when no
      element has the id nothing changes. */
  function Splice<T>(xs: seq<T>, id: string, idOf: T -> string): (r: (seq<T>, Option<T>))
    ensures r.1.None? <==> forall j :: 0 <= j < |xs| ==> idOf(xs[j]) != id
    ensures r.1.None? ==> r.0 == xs
    ensures r.1.Some? ==> (idOf(r.1.value) == id && |r.0| == |xs| - 1
      && exists i :: 0 <= i < |xs| && xs[i] == r.1.value && (forall j :: 0 <= j < i ==> idOf(xs[j]) != id)
                     && r.0 == xs[..i] + xs[i + 1..])
  {
    var i := FindIndex(xs, id, idOf);
    if i < 0 then (xs, None) else (xs[..i] + xs[i + 1..], Some(xs[i]))
  }

  /** `find` then assignments to the fields of the record found, which is
      also what the resolver returns: only the first element with the id
      changes, to `f` of it. */
  function Update<T>(xs: seq<T>, id: string, idOf: T -> string, f: T -> T): (r: Option<(seq<T>, T)>)
    ensures r.None? <==> forall j :: 0 <= j < |xs| ==> idOf(xs[j]) != id
    ensures r.Some? ==> (|r.value.0| == |xs|
      && exists i :: 0 <= i < |xs| && idOf(xs[i]) == id && (forall j :: 0 <= j < i ==> idOf(xs[j]) != id)
                     && r.value.1 == f(xs[i]) && r.value.0 == xs[i := f(xs[i])])
  {
    var i := FindIndex(xs, id, idOf);
    if i < 0 then None else Some((xs[i := f(xs[i])], f(xs[i])))
  }

  /** No two elements share an id. */
  ghost predicate DistinctIds<T>(xs: seq<T>, idOf: T -> string)
  {
    forall i, j :: 0 <= i < j < |xs| ==> idOf(xs[i]) != idOf(xs[j])
  }

  /** A pushed element whose id no other element has is what `find` of its
      id returns afterwards. */
  lemma FindPushed<T>(xs: seq<T>, x: T, idOf: T -> string, notFound: Error)
    requires forall j :: 0 <= j < |xs| ==> idOf(xs[j]) != idOf(x)
    ensures Find(xs + [x], idOf(x), idOf, notFound) == Ok(x)
  {
    var ys := xs + [x];
    assert ys[|xs|] == x;
    forall j | 0 <= j < |xs| ensures idOf(ys[j]) != idOf(x) {
      assert ys[j] == xs[j];
    }
  }

  /** `push` leaves what `find` returns for an id already present. */
  lemma FindAfterPush<T>(xs: seq<T>, x: T, id: string, idOf: T -> string, notFound: Error)
    requires Find(xs, id, idOf, notFound).Ok?
    ensures Find(xs + [x], id, idOf, notFound) == Find(xs, id, idOf, notFound)
  {
    var ys := xs + [x];
    var i := FindIndex(xs, id, idOf);
    assert ys[i] == xs[i];
    forall j | 0 <= j < i ensures idOf(ys[j]) != id {
      assert ys[j] == xs[j];
    }
  }

  /** With distinct ids, the id deleted by `splice` is no longer found, and
      the remaining ids are still distinct. */
  lemma SpliceRemovesId<T>(xs: seq<T>, id: string, idOf: T -> string)
    requires DistinctIds(xs, idOf)
    ensures var (rest, _) := Splice(xs, id, idOf);
      (forall j :: 0 <= j < |rest| ==> idOf(rest[j]) != id) && DistinctIds(rest, idOf)
  {
    var i := FindIndex(xs, id, idOf);
    if 0 <= i {
      var rest := xs[..i] + xs[i + 1..];
      forall j | 0 <= j < |rest| ensures idOf(rest[j]) != id && rest[j] == xs[if j < i then j else j + 1] {
        if j < i {
          assert rest[j] == xs[j];
        } else {
          assert rest[j] == xs[j + 1];
        }
      }
      forall a, b | 0 <= a < b < |rest| ensures idOf(rest[a]) != idOf(rest[b]) {
        assert rest[a] == xs[if a < i then a else a + 1];
        assert rest[b] == xs[if b < i then b else b + 1];
      }
    }
  }

  // ------------------------------------------------------------------ fresh ids

  /** The largest number among the ids made of digits only, 0 if none. */
  function MaxNumericId(ids: seq<string>): (m: nat)
    ensures forall k :: 0 <= k < |ids| && AllDigits(ids[k]) ==> DigitsValue(ids[k]) <= m
    decreases |ids|
  {
    if ids == [] then 0
    else
      var front := ids[..|ids| - 1];
      var m := MaxNumericId(front);
      assert forall k :: 0 <= k < |front| ==> front[k] == ids[k];
      var last := ids[|ids| - 1];
      if AllDigits(last) && DigitsValue(last) > m then DigitsValue(last) else m
  }

  /** An id one past the largest numeric id: a new record never shares an
      id with a record already in the array. */
  function FreshId(ids: seq<string>): (id: string)
    ensures id !in ids
    ensures AllDigits(id)
  {
    var n := MaxNumericId(ids);
    DigitsValueOfNat(n + 1);
    NatToDecimal(n + 1)
  }

  /** The ids in the array, in order. */
  function IdsOf<T>(xs: seq<T>, idOf: T -> string): seq<string>
  {
    seq(|xs|, k requires 0 <= k < |xs| => idOf(xs[k]))
  }

  /** Pushing a record with a fresh id keeps the ids distinct. */
  lemma PushFreshKeepsIdsDistinct<T>(xs: seq<T>, x: T, idOf: T -> string)
    requires DistinctIds(xs, idOf) && idOf(x) == FreshId(IdsOf(xs, idOf))
    ensures DistinctIds(xs + [x], idOf)
  {
    var ys := xs + [x];
    var ids := IdsOf(xs, idOf);
    forall i, j | 0 <= i < j < |ys| ensures idOf(ys[i]) != idOf(ys[j]) {
      assert ys[i] == xs[i];
      if j == |xs| {
        assert ids[i] == idOf(xs[i]);
      } else {
        assert ys[j] == xs[j];
      }
    }
  }
}
