/** The paging iterators of the Postgres backend: each fetch reads the next
    page of at most 100 rows (OFFSET/LIMIT in table order), converts them
    into a buffer, and `Next` hands the buffer out one item at a time,
    refilling it only when it is empty. */
module PostgresPaging {
  import opened Wrappers
  import opened Database

  /** The `limit` every iterator is created with. */
  const PageLimit: nat := 100

  /** The fields of an iterator that change: the offset of the next page,
      the buffered items (`None` for a nil pointer) and `moreData`. */
  datatype Page<T> = Page(offset: nat, buffer: seq<Option<T>>, moreData: bool)

  /** A new iterator: nothing fetched yet. */
  function Start<T>(): Page<T>
  {
    Page(0, [], true)
  }

  /** `OFFSET offset LIMIT 100` over the selected rows. */
  function Batch<R>(rows: seq<R>, offset: nat): (b: seq<R>)
    ensures |b| <= PageLimit
    ensures offset <= |rows| ==> offset + |b| <= |rows| && b == rows[offset..offset + |b|]
    ensures offset <= |rows| ==> (|b| < PageLimit <==> offset + |b| == |rows| && |rows| - offset < PageLimit)
  {
    if offset >= |rows| then []
    else rows[offset..if offset + PageLimit < |rows| then offset + PageLimit else |rows|]
  }

  /** The conversion loop of a fetch: the slice is made with nil entries,
      and converting stops at the first row that fails, leaving it and the
      rows after it nil. */
  function ConvertBatch<R, T>(batch: seq<R>, convert: R -> Result<T>): (r: (Outcome, seq<Option<T>>))
    ensures |r.1| == |batch|
    ensures r.0.Pass? <==> forall i :: 0 <= i < |batch| ==> convert(batch[i]).Ok?
    ensures r.0.Pass? ==> forall i :: 0 <= i < |batch| ==> r.1[i] == Some(convert(batch[i]).value)
  {
    if batch == [] then (Pass, [])
    else match convert(batch[0])
      case Err(e) => (Fail(e), seq(|batch|, _ => None))
      case Ok(x) =>
        var (o, rest) := ConvertBatch(batch[1..], convert);
        assert forall i :: 0 < i < |batch| ==> batch[i] == batch[1..][i - 1];
        (o, [Some(x)] + rest)
  }

  /** When row `i` is the first that does not convert, the fetch fails with
      its error, the rows before it are converted and the rest are nil. */
  lemma {:induction false} ConvertBatchFailsAt<R, T>(batch: seq<R>, convert: R -> Result<T>, i: nat)
    requires i < |batch| && convert(batch[i]).Err?
    requires forall j :: 0 <= j < i ==> convert(batch[j]).Ok?
    ensures ConvertBatch(batch, convert).0 == Fail(convert(batch[i]).error)
    ensures forall j :: 0 <= j < i ==> ConvertBatch(batch, convert).1[j] == Some(convert(batch[j]).value)
    ensures forall j :: i <= j < |batch| ==> ConvertBatch(batch, convert).1[j] == None
  {
    if i > 0 {
      assert forall j :: 0 <= j < i - 1 ==> batch[1..][j] == batch[j + 1];
      ConvertBatchFailsAt(batch[1..], convert, i - 1);
      var rest := ConvertBatch(batch[1..], convert).1;
      assert ConvertBatch(batch, convert).1 == [Some(convert(batch[0]).value)] + rest;
      assert forall j :: 1 <= j < |batch| ==> ConvertBatch(batch, convert).1[j] == rest[j - 1];
    }
  }

  /** The loop that fills a fetched page's buffer. */
  method Convert<R, T>(batch: seq<R>, convert: R -> Result<T>) returns (o: Outcome, buffer: seq<Option<T>>)
    ensures (o, buffer) == ConvertBatch(batch, convert)
  {
    buffer := seq(|batch|, _ => None);
    for i := 0 to |batch|
      invariant |buffer| == |batch|
      invariant forall j :: 0 <= j < i ==> convert(batch[j]).Ok?
      invariant forall j :: 0 <= j < i ==> buffer[j] == Some(convert(batch[j]).value)
      invariant forall j :: i <= j < |buffer| ==> buffer[j] == None
    {
      var item := convert(batch[i]);
      if item.Err? {
        ConvertBatchFailsAt(batch, convert, i);
        assert buffer == ConvertBatch(batch, convert).1;
        return Fail(item.error), buffer;
      }
      buffer := buffer[i := Some(item.value)];
    }
    assert buffer == ConvertBatch(batch, convert).1;
    o := Pass;
  }

  /** `fetchNextBatch`: a failed query clears `moreData`; otherwise the
      offset moves past the page and `moreData` says the page was full. */
  function Fetch<R, T>(offline: bool, rows: seq<R>, convert: R -> Result<T>, st: Page<T>): (Outcome, Page<T>)
  {
    if offline then (Fail(ErrQuery), st.(moreData := false))
    else
      var b := Batch(rows, st.offset);
      var (o, buffer) := ConvertBatch(b, convert);
      (o, Page(st.offset + |b|, buffer, |b| == PageLimit))
  }

  /** The body of `fetchNextBatch` on the iterator's fields. */
  method FetchPage<R, T>(offline: bool, rows: seq<R>, convert: R -> Result<T>, st: Page<T>)
    returns (o: Outcome, next: Page<T>)
    ensures (o, next) == Fetch(offline, rows, convert, st)
  {
    if offline {
      return Fail(ErrQuery), st.(moreData := false);
    }
    var results := Batch(rows, st.offset);
    var buffer;
    o, buffer := Convert(results, convert);
    next := Page(st.offset + |results|, buffer, |results| == PageLimit);
  }

  /** Hand out the first buffered item, or `io.EOF`. */
  function Take<T>(st: Page<T>): (Result<Option<T>>, Page<T>)
  {
    if |st.buffer| > 0 then (Ok(st.buffer[0]), st.(buffer := st.buffer[1..]))
    else (Err(EndOfIteration), st)
  }

  /** `Next`: refill once when the buffer is empty and more data is
      expected; a failed fetch is returned. */
  function NextSpec<R, T>(offline: bool, rows: seq<R>, convert: R -> Result<T>, st: Page<T>): (Result<Option<T>>, Page<T>)
  {
    if |st.buffer| == 0 && st.moreData then
      var (o, fetched) := Fetch(offline, rows, convert, st);
      if o.Fail? then (Err(o.error), fetched) else Take(fetched)
    else Take(st)
  }

  /** The rows a fetch can still reach, plus one for the fetch that finds
      the end. */
  function Pending<T>(count: nat, st: Page<T>): nat
  {
    if !st.moreData then 0 else 1 + (if st.offset < count then count - st.offset else 0)
  }

  /** Each item `Next` hands out brings the iteration closer to its end. */
  lemma NextProgresses<R, T>(offline: bool, rows: seq<R>, convert: R -> Result<T>, st: Page<T>)
    ensures var (r, next) := NextSpec(offline, rows, convert, st);
      r.Ok? ==>
        Pending(|rows|, next) < Pending(|rows|, st)
        || (Pending(|rows|, next) == Pending(|rows|, st) && |next.buffer| < |st.buffer|)
  {
  }

  /** `ForEach`: the callback on every item until `Next` or the callback
      fails; `io.EOF` and `storer.ErrStop` end it without error.  The
      third component lists the items given to the callback. */
  function ForEachSpec<R, T>(offline: bool, rows: seq<R>, convert: R -> Result<T>, cb: Option<T> -> Outcome, st: Page<T>)
    : (Outcome, Page<T>, seq<Option<T>>)
    decreases Pending(|rows|, st), |st.buffer|
  {
    var (item, next) := NextSpec(offline, rows, convert, st);
    if item.Err? then (if item.error == EndOfIteration then Pass else Fail(item.error), next, [])
    else
      NextProgresses(offline, rows, convert, st);
      var o := cb(item.value);
      if o.Fail? then (if o.error == Stop then Pass else o, next, [item.value])
      else
        var (r, last, seen) := ForEachSpec(offline, rows, convert, cb, next);
        (r, last, [item.value] + seen)
  }

  /** One step of `ForEach`: what the iteration gives once `Next` has
      returned `item` and moved the iterator to `next`. */
  lemma ForEachUnfold<R, T>(offline: bool, rows: seq<R>, convert: R -> Result<T>, cb: Option<T> -> Outcome,
                            st: Page<T>, item: Result<Option<T>>, next: Page<T>)
    requires (item, next) == NextSpec(offline, rows, convert, st)
    ensures item.Err? ==>
      ForEachSpec(offline, rows, convert, cb, st) == (if item.error == EndOfIteration then Pass else Fail(item.error), next, [])
    ensures item.Ok? ==>
      Pending(|rows|, next) < Pending(|rows|, st)
      || (Pending(|rows|, next) == Pending(|rows|, st) && |next.buffer| < |st.buffer|)
    ensures item.Ok? && cb(item.value).Fail? ==>
      ForEachSpec(offline, rows, convert, cb, st)
      == (if cb(item.value).error == Stop then Pass else cb(item.value), next, [item.value])
    ensures item.Ok? && cb(item.value).Pass? ==>
      var (r, last, seen) := ForEachSpec(offline, rows, convert, cb, next);
      ForEachSpec(offline, rows, convert, cb, st) == (r, last, [item.value] + seen)
  {
    NextProgresses(offline, rows, convert, st);
  }

  /** The body of `Next` on the iterator's fields. */
  method NextPage<R, T>(offline: bool, rows: seq<R>, convert: R -> Result<T>, st: Page<T>)
    returns (item: Result<Option<T>>, next: Page<T>)
    ensures (item, next) == NextSpec(offline, rows, convert, st)
  {
    next := st;
    if |st.buffer| == 0 && st.moreData {
      var fetched;
      fetched, next := FetchPage(offline, rows, convert, st);
      if fetched.Fail? {
        return Err(fetched.error), next;
      }
    }
    if |next.buffer| > 0 {
      return Ok(next.buffer[0]), next.(buffer := next.buffer[1..]);
    }
    return Err(EndOfIteration), next;
  }

  /** The loop of `ForEach` on the iterator's fields: `Next` until it
      fails, the callback on each item until it fails. */
  method ForEachPage<R, T>(offline: bool, rows: seq<R>, convert: R -> Result<T>, cb: Option<T> -> Outcome, st: Page<T>)
    returns (r: Outcome, last: Page<T>, ghost seen: seq<Option<T>>)
    ensures (r, last, seen) == ForEachSpec(offline, rows, convert, cb, st)
  {
    ghost var goal := ForEachSpec(offline, rows, convert, cb, st);
    last := st;
    seen := [];
    while true
      invariant goal.0 == ForEachSpec(offline, rows, convert, cb, last).0
      invariant goal.1 == ForEachSpec(offline, rows, convert, cb, last).1
      invariant goal.2 == seen + ForEachSpec(offline, rows, convert, cb, last).2
      decreases Pending(|rows|, last), |last.buffer|
    {
      var before := last;
      var item;
      item, last := NextPage(offline, rows, convert, before);
      ForEachUnfold(offline, rows, convert, cb, before, item, last);
      if item.Err? {
        r := if item.error == EndOfIteration then Pass else Fail(item.error);
        assert seen + [] == seen;
        return;
      }
      var o := cb(item.value);
      if o.Fail? {
        r := if o.error == Stop then Pass else o;
        seen := seen + [item.value];
        return;
      }
      seen := seen + [item.value];
    }
  }

  /** What an iterator still holds: its buffer, then the rows from its
      offset on when more data is expected. */
  function Remaining<R, T>(rows: seq<R>, convert: R -> Result<T>, st: Page<T>): seq<Option<T>>
    requires st.offset <= |rows|
  {
    st.buffer + (if st.moreData then ConvertBatch(rows[st.offset..], convert).1 else [])
  }

  /** Over a reachable database whose rows all convert, `ForEach` with a
      callback that accepts everything hands out exactly what remains:
      every row once, in table order. */
  lemma {:induction false} ForEachGivesRemaining<R, T>(rows: seq<R>, convert: R -> Result<T>, cb: Option<T> -> Outcome, st: Page<T>)
    requires forall i :: 0 <= i < |rows| ==> convert(rows[i]).Ok?
    requires forall x :: cb(x) == Pass
    requires st.offset <= |rows| && (!st.moreData ==> st.offset == |rows|)
    ensures var (r, _, seen) := ForEachSpec(false, rows, convert, cb, st);
      r == Pass && seen == Remaining(rows, convert, st)
    decreases Pending(|rows|, st), |st.buffer|
  {
    var filled := if |st.buffer| == 0 && st.moreData then Fetch(false, rows, convert, st).1 else st;
    if |st.buffer| == 0 && st.moreData {
      FetchKeepsRemaining(rows, convert, st);
    }
    assert NextSpec(false, rows, convert, st) == Take(filled);
    if |filled.buffer| > 0 {
      var next := Take(filled).1;
      NextProgresses(false, rows, convert, st);
      ForEachGivesRemaining(rows, convert, cb, next);
      RemainingAfterTake(rows, convert, filled);
    } else {
      assert !filled.moreData || filled.offset == |rows|;
    }
  }

  /** Taking an item from a non-empty buffer leaves the rest of what
      remains. */
  lemma RemainingAfterTake<R, T>(rows: seq<R>, convert: R -> Result<T>, st: Page<T>)
    requires st.offset <= |rows| && |st.buffer| > 0
    ensures Remaining(rows, convert, st) == [st.buffer[0]] + Remaining(rows, convert, Take(st).1)
  {
    assert st.buffer == [st.buffer[0]] + st.buffer[1..];
  }

  /** A fetch moves rows from the table into the buffer: what remains is
      unchanged. */
  lemma FetchKeepsRemaining<R, T>(rows: seq<R>, convert: R -> Result<T>, st: Page<T>)
    requires forall i :: 0 <= i < |rows| ==> convert(rows[i]).Ok?
    requires st.offset <= |rows| && |st.buffer| == 0 && st.moreData
    ensures var f := Fetch(false, rows, convert, st).1;
      f.offset <= |rows| && (!f.moreData ==> f.offset == |rows|)
      && Remaining(rows, convert, f) == Remaining(rows, convert, st)
      && (|f.buffer| == 0 ==> Remaining(rows, convert, st) == [])
  {
    var b := Batch(rows, st.offset);
    var f := Fetch(false, rows, convert, st).1;
    assert rows[st.offset..f.offset] == b;
    ConvertBatchAllOk(rows, convert, st.offset, f.offset);
    if !f.moreData {
      assert rows[f.offset..] == [];
    }
    if |b| == 0 {
      assert rows[st.offset..] == [];
    }
  }

  /** With every row converting, the conversion of a run of rows is the
      conversion of its first part followed by that of the rest. */
  lemma ConvertBatchAllOk<R, T>(rows: seq<R>, convert: R -> Result<T>, lo: nat, mid: nat)
    requires forall i :: 0 <= i < |rows| ==> convert(rows[i]).Ok?
    requires lo <= mid <= |rows|
    ensures ConvertBatch(rows[lo..], convert).1
      == ConvertBatch(rows[lo..mid], convert).1 + ConvertBatch(rows[mid..], convert).1
  {
    var whole := ConvertBatch(rows[lo..], convert);
    var first := ConvertBatch(rows[lo..mid], convert);
    var second := ConvertBatch(rows[mid..], convert);
    assert forall i :: 0 <= i < |rows[lo..]| ==> rows[lo..][i] == rows[lo + i];
    assert forall i :: 0 <= i < |rows[lo..mid]| ==> rows[lo..mid][i] == rows[lo + i];
    assert forall i :: 0 <= i < |rows[mid..]| ==> rows[mid..][i] == rows[mid + i];
    assert whole.1 == first.1 + second.1;
  }

  /** A new iterator over a reachable database hands out every row once,
      in table order. */
  lemma NewIteratorGivesEveryRow<R, T>(rows: seq<R>, convert: R -> Result<T>, cb: Option<T> -> Outcome)
    requires forall i :: 0 <= i < |rows| ==> convert(rows[i]).Ok?
    requires forall x :: cb(x) == Pass
    ensures var (r, _, seen) := ForEachSpec(false, rows, convert, cb, Start());
      r == Pass && |seen| == |rows| && forall i :: 0 <= i < |rows| ==> seen[i] == Some(convert(rows[i]).value)
  {
    ForEachGivesRemaining(rows, convert, cb, Start());
    assert rows[0..] == rows;
  }

  /** A lost connection ends an iteration that needs a page with the
      query's error. */
  lemma OfflineFetchFails<R, T>(rows: seq<R>, convert: R -> Result<T>, cb: Option<T> -> Outcome, st: Page<T>)
    requires |st.buffer| == 0 && st.moreData
    ensures ForEachSpec(true, rows, convert, cb, st).0 == Fail(ErrQuery)
  {
  }

  /** After a row fails to convert, `Next` returns the error once, and the
      iterator then hands out the rows before it and nil for it and for the
      rest of its page. */
  lemma ConversionFailureLeavesNil<R, T>(rows: seq<R>, convert: R -> Result<T>, st: Page<T>, i: nat)
    requires |st.buffer| == 0 && st.moreData && st.offset <= |rows|
    requires i < |Batch(rows, st.offset)| && convert(Batch(rows, st.offset)[i]).Err?
    requires forall j :: 0 <= j < i ==> convert(Batch(rows, st.offset)[j]).Ok?
    ensures var (r, next) := NextSpec(false, rows, convert, st);
      r == Err(convert(Batch(rows, st.offset)[i]).error)
      && |next.buffer| == |Batch(rows, st.offset)| && next.buffer[i] == None
      && next.offset == st.offset + |Batch(rows, st.offset)|
  {
    ConvertBatchFailsAt(Batch(rows, st.offset), convert, i);
  }
}
