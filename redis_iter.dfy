/** The SCAN-driven iterators of the Redis backend, `ReferenceIter` and
    `EncodedObjectIter`.  Both keep a cursor, a buffer of keys and a
    `moreData` flag, refill the buffer with one SCAN when it is empty, and
    read and decode one key per `Next`; they differ only in the pattern they
    scan and in how they decode a value, which are parameters here. */
module RedisIter {
  import opened Wrappers
  import opened GitPlumbing
  import opened RedisClient

  /** The fields of an iterator that its methods change. */
  datatype IterState = IterState(cursor: nat, keys: seq<Key>, moreData: bool)

  /** The iterator a constructor starts from, before its first fetch. */
  const Initial := IterState(0, [], true)

  /** `fetchNextBatch`: with more data to come, one SCAN replaces the
      buffer; a failed SCAN empties it and ends the iteration. */
  function Fetch(db: Db, p: Pattern, st: IterState): (r: IterState)
    ensures !st.moreData ==> r == st
    ensures st.moreData && db.offline ==> r == IterState(0, [], false)
    ensures st.moreData && !db.offline && st.cursor < |db.layout| ==>
      r.keys == Filter(db.layout[st.cursor], p, db.data)
      && r.moreData == (st.cursor + 1 < |db.layout|)
      && (r.moreData ==> r.cursor == st.cursor + 1)
    ensures st.moreData && !db.offline && st.cursor >= |db.layout| ==> r == IterState(0, [], false)
  {
    if !st.moreData then st
    else match db.Scan(st.cursor, p)
      case Err(_) => IterState(0, [], false)
      case Ok((keys, next)) => IterState(next, keys, next != 0)
  }

  /** What `Next` makes of one key: the GET reply, decoded. */
  function Item<T>(db: Db, decode: Payload -> Result<T>, key: Key): Result<T>
  {
    match db.Get(key)
    case Err(e) => Err(e)
    case Ok(data) => decode(data)
  }

  /** `Next`: refill an empty buffer once, then take its first key; an
      empty buffer after that is the end. */
  function NextSpec<T>(db: Db, p: Pattern, decode: Payload -> Result<T>, st: IterState): (r: (Result<T>, IterState))
  {
    var st1 := if |st.keys| == 0 && st.moreData then Fetch(db, p, st) else st;
    if |st1.keys| > 0 then (Item(db, decode, st1.keys[0]), st1.(keys := st1.keys[1..]))
    else (Err(EndOfIteration), st1)
  }

  /** The scans an iterator still has to make. */
  function Pending(db: Db, st: IterState): nat
  {
    if st.moreData && st.cursor <= |db.layout| then |db.layout| + 1 - st.cursor else 0
  }

  /** `Next` either ends the iteration or moves it on. */
  lemma NextProgresses<T>(db: Db, p: Pattern, decode: Payload -> Result<T>, st: IterState)
    ensures var (r, st1) := NextSpec(db, p, decode, st);
      (r == Err(EndOfIteration) && |st1.keys| == 0)
      || Pending(db, st1) < Pending(db, st)
      || (Pending(db, st1) == Pending(db, st) && |st1.keys| < |st.keys|)
  {
  }

  /** `ForEach`: call `cb` on each item until the end, an error of `Next`
      or an error of `cb`; the first and `storer.ErrStop` end it without
      an error.  The last component is what `cb` was given. */
  function ForEachSpec<T>(db: Db, p: Pattern, decode: Payload -> Result<T>, cb: T -> Outcome, st: IterState)
    : (r: (Outcome, IterState, seq<T>))
    decreases Pending(db, st), |st.keys|
  {
    var (n, st1) := NextSpec(db, p, decode, st);
    NextProgresses(db, p, decode, st);
    if n.Err? then (if n.error == EndOfIteration then Pass else Fail(n.error), st1, [])
    else match cb(n.value)
      case Fail(e) => (if e == Stop then Pass else Fail(e), st1, [n.value])
      case Pass =>
        var (o, st2, seen) := ForEachSpec(db, p, decode, cb, st1);
        (o, st2, [n.value] + seen)
  }

  /** The keys an iterator still has to give if nothing goes wrong: its
      buffer, then the matching keys of every batch it has not scanned. */
  function Remaining(db: Db, p: Pattern, st: IterState): seq<Key>
  {
    st.keys + if st.moreData && st.cursor < |db.layout| then Filter(Flatten(db.layout[st.cursor..]), p, db.data) else []
  }

  lemma FlattenCons(batches: seq<seq<Key>>)
    requires batches != []
    ensures Flatten(batches) == batches[0] + Flatten(batches[1..])
    decreases |batches|
  {
    if |batches| > 1 {
      var n := |batches| - 1;
      FlattenCons(batches[..n]);
      assert batches[..n][1..] == batches[1..][..n - 1];
      assert batches[..n][0] == batches[0];
    } else {
      assert batches[..0] == [];
    }
  }

  /** A SCAN that returns no keys while the cursor has not come back to 0
      ends the iteration, however many matching keys later batches hold. */
  lemma EmptyBatchEndsIteration<T>(db: Db, p: Pattern, decode: Payload -> Result<T>, st: IterState)
    requires !db.offline && st.keys == [] && st.moreData
    requires st.cursor + 1 < |db.layout| && Filter(db.layout[st.cursor], p, db.data) == []
    ensures NextSpec(db, p, decode, st) == (Err(EndOfIteration), IterState(st.cursor + 1, [], true))
  {
  }

  /** A SCAN that fails ends the iteration as if there were nothing more,
      and `ForEach` returns no error. */
  lemma ScanErrorEndsSilently<T>(db: Db, p: Pattern, decode: Payload -> Result<T>, cb: T -> Outcome, st: IterState)
    requires db.offline && st.keys == [] && st.moreData
    ensures NextSpec(db, p, decode, st) == (Err(EndOfIteration), IterState(0, [], false))
    ensures ForEachSpec(db, p, decode, cb, st) == (Pass, IterState(0, [], false), [])
  {
  }

  /** A matching key the iterator never gives: behind two empty batches. */
  lemma MatchingKeyCanBeMissed<T>(k: Key, v: Value, p: Pattern, decode: Payload -> Result<T>, cb: T -> Outcome)
    requires Matches(k, p)
    ensures var db := Db(map[k := v], [[], [], [k]], false);
      db.ValidLayout() && k in db.ScanAll(p)
      && ForEachSpec(db, p, decode, cb, Fetch(db, p, Initial)) == (Pass, IterState(2, [], true), [])
  {
    var db := Db(map[k := v], [[], [], [k]], false);
    assert Flatten(db.layout) == [k] by {
      var one: seq<seq<Key>> := [[]];
      var two: seq<seq<Key>> := [[], []];
      assert one[..0] == [];
      assert Flatten(one) == [];
      assert two[..1] == one;
      assert Flatten(two) == [];
      assert db.layout[..2] == two;
    }
    assert Fetch(db, p, Initial) == IterState(1, [], true);
    assert NextSpec(db, p, decode, IterState(1, [], true)) == (Err(EndOfIteration), IterState(2, [], true));
  }

  /** A fetch on an empty buffer keeps what remains to be given. */
  lemma FetchKeepsRemaining(db: Db, p: Pattern, st: IterState)
    requires !db.offline && st.keys == []
    ensures Remaining(db, p, Fetch(db, p, st)) == Remaining(db, p, st)
  {
    if st.moreData && st.cursor < |db.layout| {
      var c := st.cursor;
      FlattenCons(db.layout[c..]);
      assert db.layout[c..][0] == db.layout[c] && db.layout[c..][1..] == db.layout[c + 1..];
      FilterAppend(db.layout[c], Flatten(db.layout[c + 1..]), p, db.data);
      if c + 1 == |db.layout| {
        assert db.layout[c + 1..] == [];
      }
    }
  }

  /** When no batch it still scans is empty, the connection holds and every
      item reads, decodes and is accepted, `ForEach` gives `cb` the items of
      exactly the keys that remain, in order. */
  lemma {:induction false} ForEachGivesRemaining<T>(
    db: Db, p: Pattern, decode: Payload -> Result<T>, cb: T -> Outcome, st: IterState)
    requires !db.offline
    requires st.moreData ==> forall j :: st.cursor <= j < |db.layout| ==> Filter(db.layout[j], p, db.data) != []
    requires forall k :: k in Remaining(db, p, st) ==> Item(db, decode, k).Ok? && cb(Item(db, decode, k).value) == Pass
    ensures var (r, _, seen) := ForEachSpec(db, p, decode, cb, st);
      var rest := Remaining(db, p, st);
      r == Pass && |seen| == |rest| && forall i :: 0 <= i < |rest| ==> seen[i] == Item(db, decode, rest[i]).value
    decreases Pending(db, st), |st.keys|
  {
    var st0 := if |st.keys| == 0 && st.moreData then Fetch(db, p, st) else st;
    var (n, st1) := NextSpec(db, p, decode, st);
    NextProgresses(db, p, decode, st);
    if |st0.keys| > 0 {
      NextTakesRemaining(db, p, decode, st);
      var rest := Remaining(db, p, st);
      forall k | k in Remaining(db, p, st1)
        ensures Item(db, decode, k).Ok? && cb(Item(db, decode, k).value) == Pass
      {
        assert k in rest;
      }
      assert rest[0] in rest;
      ForEachGivesRemaining(db, p, decode, cb, st1);
      var (_, _, seen) := ForEachSpec(db, p, decode, cb, st1);
      assert ForEachSpec(db, p, decode, cb, st).2 == [n.value] + seen;
    } else {
      if |st.keys| == 0 {
        FetchKeepsRemaining(db, p, st);
      }
      assert st0.moreData ==> st0.cursor >= |db.layout|;
    }
  }

  /** When `Next` finds a key, it is the first of those that remain, and
      the rest remain afterwards. */
  lemma NextTakesRemaining<T>(db: Db, p: Pattern, decode: Payload -> Result<T>, st: IterState)
    requires !db.offline
    requires |(if |st.keys| == 0 && st.moreData then Fetch(db, p, st) else st).keys| > 0
    ensures var (n, st1) := NextSpec(db, p, decode, st);
      var rest := Remaining(db, p, st);
      rest != [] && n == Item(db, decode, rest[0]) && Remaining(db, p, st1) == rest[1..]
      && (st1.moreData ==> st.moreData && st1.cursor >= st.cursor)
  {
    var st0 := if |st.keys| == 0 && st.moreData then Fetch(db, p, st) else st;
    if |st.keys| == 0 {
      FetchKeepsRemaining(db, p, st);
    }
    assert Remaining(db, p, st0) == Remaining(db, p, st);
    var rest := Remaining(db, p, st);
    assert rest[0] == st0.keys[0];
  }

  /** A new iterator over a valid layout with no empty batch after the
      first gives the item of each matching key exactly once. */
  lemma NewIteratorGivesEveryMatch<T>(db: Db, p: Pattern, decode: Payload -> Result<T>, cb: T -> Outcome)
    requires !db.offline && db.ValidLayout()
    requires forall j :: 1 <= j < |db.layout| ==> Filter(db.layout[j], p, db.data) != []
    requires forall k :: k in db.ScanAll(p) ==> Item(db, decode, k).Ok? && cb(Item(db, decode, k).value) == Pass
    ensures var (r, _, seen) := ForEachSpec(db, p, decode, cb, Fetch(db, p, Initial));
      var all := db.ScanAll(p);
      r == Pass && |seen| == |all| == |db.MatchingKeys(p)|
      && forall i :: 0 <= i < |all| ==> seen[i] == Item(db, decode, all[i]).value
  {
    var st := Fetch(db, p, Initial);
    FetchKeepsRemaining(db, p, Initial);
    if |db.layout| > 0 {
      assert db.layout[0..] == db.layout;
    }
    assert Remaining(db, p, Initial) == db.ScanAll(p);
    ScanAllIsMatchingKeys(db, p);
    ForEachGivesRemaining(db, p, decode, cb, st);
  }

  /** How far an iterator is from its end: each scan still to make counts
      twice, and a pending `moreData` once more. */
  function Rank(db: Db, st: IterState): nat
  {
    2 * Pending(db, st) + if st.moreData then 1 else 0
  }

  /** The refill `Next` evidently intends: keep scanning while the buffer
      is empty and the cursor has not come back to 0. */
  function RefillIntended(db: Db, p: Pattern, st: IterState): (r: IterState)
    ensures r == st || Rank(db, r) < Rank(db, st)
    ensures |r.keys| == 0 ==> !r.moreData
    decreases Rank(db, st)
  {
    if |st.keys| == 0 && st.moreData then RefillIntended(db, p, Fetch(db, p, st)) else st
  }

  /** `Next` with the intended refill. */
  function NextIntendedSpec<T>(db: Db, p: Pattern, decode: Payload -> Result<T>, st: IterState): (r: (Result<T>, IterState))
  {
    var st1 := RefillIntended(db, p, st);
    if |st1.keys| > 0 then (Item(db, decode, st1.keys[0]), st1.(keys := st1.keys[1..]))
    else (Err(EndOfIteration), st1)
  }

  /** `ForEach` over the intended `Next`. */
  function ForEachIntendedSpec<T>(db: Db, p: Pattern, decode: Payload -> Result<T>, cb: T -> Outcome, st: IterState)
    : (r: (Outcome, IterState, seq<T>))
    decreases Rank(db, st), |st.keys|
  {
    var (n, st1) := NextIntendedSpec(db, p, decode, st);
    if n.Err? then (if n.error == EndOfIteration then Pass else Fail(n.error), st1, [])
    else match cb(n.value)
      case Fail(e) => (if e == Stop then Pass else Fail(e), st1, [n.value])
      case Pass =>
        var (o, st2, seen) := ForEachIntendedSpec(db, p, decode, cb, st1);
        (o, st2, [n.value] + seen)
  }

  /** The intended refill keeps what remains to be given. */
  lemma {:induction false} RefillIntendedKeepsRemaining(db: Db, p: Pattern, st: IterState)
    requires !db.offline
    ensures Remaining(db, p, RefillIntended(db, p, st)) == Remaining(db, p, st)
    decreases Rank(db, st)
  {
    if |st.keys| == 0 && st.moreData {
      FetchKeepsRemaining(db, p, st);
      RefillIntendedKeepsRemaining(db, p, Fetch(db, p, st));
    }
  }

  /** With the connection holding and every item reading, decoding and
      being accepted, the intended `ForEach` gives `cb` the items of exactly
      the keys that remain, in order, whatever batches are empty. */
  lemma {:induction false} ForEachIntendedGivesRemaining<T>(
    db: Db, p: Pattern, decode: Payload -> Result<T>, cb: T -> Outcome, st: IterState)
    requires !db.offline
    requires forall k :: k in Remaining(db, p, st) ==> Item(db, decode, k).Ok? && cb(Item(db, decode, k).value) == Pass
    ensures var (r, _, seen) := ForEachIntendedSpec(db, p, decode, cb, st);
      var rest := Remaining(db, p, st);
      r == Pass && |seen| == |rest| && forall i :: 0 <= i < |rest| ==> seen[i] == Item(db, decode, rest[i]).value
    decreases Rank(db, st), |st.keys|
  {
    var (n, st1) := NextIntendedSpec(db, p, decode, st);
    NextIntendedTakesRemaining(db, p, decode, st);
    var rest := Remaining(db, p, st);
    if rest != [] {
      forall k | k in Remaining(db, p, st1)
        ensures Item(db, decode, k).Ok? && cb(Item(db, decode, k).value) == Pass
      {
        assert k in rest;
      }
      assert rest[0] in rest;
      ForEachIntendedGivesRemaining(db, p, decode, cb, st1);
      var (_, _, seen) := ForEachIntendedSpec(db, p, decode, cb, st1);
      assert ForEachIntendedSpec(db, p, decode, cb, st).2 == [n.value] + seen;
    }
  }

  /** The intended `Next` ends exactly when nothing remains; otherwise it
      takes the first key that remains, and moves the iterator on. */
  lemma NextIntendedTakesRemaining<T>(db: Db, p: Pattern, decode: Payload -> Result<T>, st: IterState)
    requires !db.offline
    ensures var (n, st1) := NextIntendedSpec(db, p, decode, st);
      var rest := Remaining(db, p, st);
      (rest == [] ==> n == Err(EndOfIteration))
      && (rest != [] ==>
            n == Item(db, decode, rest[0]) && Remaining(db, p, st1) == rest[1..]
            && (Rank(db, st1) < Rank(db, st) || (Rank(db, st1) == Rank(db, st) && |st1.keys| < |st.keys|)))
  {
    var st0 := RefillIntended(db, p, st);
    RefillIntendedKeepsRemaining(db, p, st);
    assert Remaining(db, p, st0) == Remaining(db, p, st);
    if |st0.keys| > 0 {
      assert Remaining(db, p, st)[0] == st0.keys[0];
    }
  }

  /** A new iterator with the intended refill over a valid layout gives the
      item of each matching key exactly once, empty batches or not. */
  lemma NewIteratorIntendedGivesEveryMatch<T>(db: Db, p: Pattern, decode: Payload -> Result<T>, cb: T -> Outcome)
    requires !db.offline && db.ValidLayout()
    requires forall k :: k in db.ScanAll(p) ==> Item(db, decode, k).Ok? && cb(Item(db, decode, k).value) == Pass
    ensures var (r, _, seen) := ForEachIntendedSpec(db, p, decode, cb, Fetch(db, p, Initial));
      var all := db.ScanAll(p);
      r == Pass && |seen| == |all| == |db.MatchingKeys(p)|
      && forall i :: 0 <= i < |all| ==> seen[i] == Item(db, decode, all[i]).value
  {
    var st := Fetch(db, p, Initial);
    FetchKeepsRemaining(db, p, Initial);
    if |db.layout| > 0 {
      assert db.layout[0..] == db.layout;
    }
    assert Remaining(db, p, Initial) == db.ScanAll(p);
    ScanAllIsMatchingKeys(db, p);
    ForEachIntendedGivesRemaining(db, p, decode, cb, st);
  }

  /** On the layout that defeats the iterator as written, the intended one
      finds the key behind the two empty batches. */
  lemma IntendedFindsKeyBehindEmptyBatches<T>(k: Key, v: Value, p: Pattern, decode: Payload -> Result<T>)
    requires Matches(k, p)
    ensures var db := Db(map[k := v], [[], [], [k]], false);
      NextIntendedSpec(db, p, decode, Fetch(db, p, Initial)).0 == Item(db, decode, k)
  {
    var db := Db(map[k := v], [[], [], [k]], false);
    assert Fetch(db, p, Initial) == IterState(1, [], true);
    assert Fetch(db, p, IterState(1, [], true)) == IterState(2, [], true);
    var last := IterState(0, [k], false);
    assert Filter([k], p, db.data) == [k] by {
      assert [k][1..] == [];
    }
    assert Fetch(db, p, IterState(2, [], true)) == last;
    assert RefillIntended(db, p, last) == last;
    assert RefillIntended(db, p, IterState(2, [], true)) == last;
    assert RefillIntended(db, p, IterState(1, [], true)) == last;
  }

  /** An iterator over a SCAN pattern; the two iterators of the backend
      differ in `pattern` and `decode`. */
  class ScanIter<T> {
    const client: Client
    const pattern: Pattern
    const decode: Payload -> Result<T>
    var cursor: nat
    var keys: seq<Key>
    var moreData: bool

    function State(): IterState
      reads this
    {
      IterState(cursor, keys, moreData)
    }

    /** `IterReferences` and `IterEncodedObjects`: start at cursor 0 and
        fetch the first batch. */
    constructor(client: Client, pattern: Pattern, decode: Payload -> Result<T>)
      ensures this.client == client && this.pattern == pattern && this.decode == decode
      ensures State() == Fetch(client.db, pattern, Initial)
    {
      this.client := client;
      this.pattern := pattern;
      this.decode := decode;
      cursor, keys, moreData := 0, [], true;
      new;
      FetchNextBatch();
    }

    method FetchNextBatch()
      modifies this
      ensures State() == Fetch(client.db, pattern, old(State()))
    {
      if moreData {
        var scanned := client.Scan(cursor, pattern);
        if scanned.Err? {
          keys, cursor, moreData := [], 0, false;
          return;
        }
        keys, cursor := scanned.value.0, scanned.value.1;
        moreData := cursor != 0;
      }
    }

    method Next() returns (r: Result<T>)
      modifies this
      ensures (r, State()) == NextSpec(client.db, pattern, decode, old(State()))
    {
      if |keys| == 0 && moreData {
        FetchNextBatch();
      }
      if |keys| > 0 {
        var key := keys[0];
        keys := keys[1..];
        var data := client.Get(key);
        if data.Err? {
          return Err(data.error);
        }
        return decode(data.value);
      }
      return Err(EndOfIteration);
    }

    method ForEach(cb: T -> Outcome) returns (r: Outcome, ghost seen: seq<T>)
      modifies this
      ensures (r, State(), seen) == ForEachSpec(client.db, pattern, decode, cb, old(State()))
    {
      ghost var goal := ForEachSpec(client.db, pattern, decode, cb, State());
      seen := [];
      while true
        invariant goal.0 == ForEachSpec(client.db, pattern, decode, cb, State()).0
        invariant goal.1 == ForEachSpec(client.db, pattern, decode, cb, State()).1
        invariant goal.2 == seen + ForEachSpec(client.db, pattern, decode, cb, State()).2
        decreases Pending(client.db, State()), |keys|
      {
        ghost var before := State();
        NextProgresses(client.db, pattern, decode, before);
        var item := Next();
        if item.Err? {
          r := if item.error == EndOfIteration then Pass else Fail(item.error);
          assert ForEachSpec(client.db, pattern, decode, cb, before) == (r, State(), []);
          assert seen + [] == seen;
          return;
        }
        var o := cb(item.value);
        seen := seen + [item.value];
        if o.Fail? {
          r := if o.error == Stop then Pass else Fail(o.error);
          assert ForEachSpec(client.db, pattern, decode, cb, before) == (r, State(), [item.value]);
          return;
        }
      }
    }
  }
}
