/** String helpers with the semantics of the Go standard library functions
    the modelled code calls: `strings.Split`, `strings.Join`,
    `strings.HasPrefix`/`HasSuffix`, `strings.LastIndex`, `strconv.Itoa`
    and `strconv.Atoi`.  A Go string is modelled as a sequence of `char`,
    one per byte. */
module Strings {
  import opened Wrappers

  const MinInt64: int := -0x8000_0000_0000_0000
  const MaxInt64: int := 0x7FFF_FFFF_FFFF_FFFF

  predicate IsInt64(i: int) { MinInt64 <= i <= MaxInt64 }

  /** A byte of a blob. */
  newtype Byte = b: int | 0 <= b < 256

  predicate StartsWith(s: string, prefix: string) {
    |prefix| <= |s| && s[..|prefix|] == prefix
  }

  predicate EndsWith(s: string, suffix: string) {
    |suffix| <= |s| && s[|s| - |suffix|..] == suffix
  }

  /** Number of occurrences of `c` in `s`. */
  function CountChar(s: string, c: char): (n: nat)
    ensures n <= |s|
    ensures n == 0 <==> c !in s
  {
    if s == [] then 0
    else (if s[|s| - 1] == c then 1 else 0) + CountChar(s[..|s| - 1], c)
  }

  lemma {:induction false} CountCharAppend(s: string, t: string, c: char)
    ensures CountChar(s + t, c) == CountChar(s, c) + CountChar(t, c)
  {
    if t == [] {
      assert s + t == s;
    } else {
      assert (s + t)[..|s + t| - 1] == s + t[..|t| - 1];
      CountCharAppend(s, t[..|t| - 1], c);
    }
  }

  /** Index of the first occurrence of `c`, as `strings.IndexByte`. */
  function IndexOf(s: string, c: char): (i: int)
    ensures -1 <= i < |s|
    ensures i == -1 <==> c !in s
    ensures 0 <= i ==> s[i] == c && forall k :: 0 <= k < i ==> s[k] != c
  {
    if s == [] then -1
    else if s[0] == c then 0
    else
      var j := IndexOf(s[1..], c);
      assert forall k :: 1 <= k < |s| ==> s[1..][k - 1] == s[k];
      if j < 0 then -1 else j + 1
  }

  /** Index of the last occurrence of `c`, as `strings.LastIndex` with a
      one-character separator. */
  function LastIndexOf(s: string, c: char): (i: int)
    ensures -1 <= i < |s|
    ensures i == -1 <==> c !in s
    ensures 0 <= i ==> s[i] == c && forall k :: i < k < |s| ==> s[k] != c
  {
    if s == [] then -1
    else if s[|s| - 1] == c then |s| - 1
    else
      var j := LastIndexOf(s[..|s| - 1], c);
      assert forall k :: 0 <= k < |s| - 1 ==> s[..|s| - 1][k] == s[k];
      j
  }

  /** `strings.Split(s, string(sep))`: the pieces between the separators,
      so an empty input gives one empty piece. */
  function Split(s: string, sep: char): (parts: seq<string>)
    ensures |parts| >= 1
    decreases |s|
  {
    var i := IndexOf(s, sep);
    if i < 0 then [s] else [s[..i]] + Split(s[i + 1..], sep)
  }

  /** No piece of a split holds the separator. */
  lemma {:induction false} SplitNoSeparator(s: string, sep: char)
    ensures forall k :: 0 <= k < |Split(s, sep)| ==> sep !in Split(s, sep)[k]
    decreases |s|
  {
    var i := IndexOf(s, sep);
    if i >= 0 {
      SplitNoSeparator(s[i + 1..], sep);
    }
  }

  /** `strings.Join(parts, sep)`. */
  function Join(parts: seq<string>, sep: string): string
  {
    if parts == [] then ""
    else if |parts| == 1 then parts[0]
    else parts[0] + sep + Join(parts[1..], sep)
  }

  /** Splitting a joined list gives the list back, provided it is nonempty
      and no part contains the separator. */
  lemma {:induction false} SplitJoin(parts: seq<string>, sep: char)
    requires |parts| >= 1
    requires forall k :: 0 <= k < |parts| ==> sep !in parts[k]
    ensures Split(Join(parts, [sep]), sep) == parts
  {
    if |parts| == 1 {
    } else {
      var s := Join(parts, [sep]);
      var rest := Join(parts[1..], [sep]);
      assert s == parts[0] + [sep] + rest;
      assert s[|parts[0]|] == sep;
      assert s[..|parts[0]|] == parts[0];
      assert IndexOf(s, sep) == |parts[0]|;
      assert s[|parts[0]| + 1..] == rest;
      SplitJoin(parts[1..], sep);
    }
  }

  lemma JoinCons(a: string, parts: seq<string>, sep: string)
    requires |parts| >= 1
    ensures Join([a] + parts, sep) == a + sep + Join(parts, sep)
  {
    var all := [a] + parts;
    assert all[0] == a && all[1..] == parts && |all| > 1;
  }

  /** Joining the pieces of a split gives the string back. */
  lemma {:induction false} JoinSplit(s: string, sep: char)
    ensures Join(Split(s, sep), [sep]) == s
    decreases |s|
  {
    var i := IndexOf(s, sep);
    if i >= 0 {
      var rest := s[i + 1..];
      JoinSplit(rest, sep);
      SplitCons(s, sep);
      JoinCons(s[..i], Split(rest, sep), [sep]);
      Reassemble(s, i);
    }
  }

  /** A sequence is what comes before `i`, its element at `i`, and what
      follows. */
  lemma Reassemble<T>(s: seq<T>, i: nat)
    requires i < |s|
    ensures s[..i] + [s[i]] + s[i + 1..] == s
  {
  }

  /** Splitting at the first separator. */
  lemma SplitCons(s: string, sep: char)
    requires IndexOf(s, sep) >= 0
    ensures Split(s, sep) == [s[..IndexOf(s, sep)]] + Split(s[IndexOf(s, sep) + 1..], sep)
  {
  }

  /** A piece without the separator, then the separator, starts the split. */
  lemma SplitAtFirst(head: string, sep: char, tail: string)
    requires sep !in head
    ensures Split(head + [sep] + tail, sep) == [head] + Split(tail, sep)
  {
    var s := head + [sep] + tail;
    assert s[|head|] == sep;
    assert forall k :: 0 <= k < |head| ==> s[k] == head[k];
    assert IndexOf(s, sep) == |head|;
    assert s[..|head|] == head;
    assert s[|head| + 1..] == tail;
    SplitCons(s, sep);
  }

  /** The last piece of a split is what follows the last separator, or the
      whole string when there is none. */
  lemma SplitLast(s: string, sep: char)
    ensures Last(Split(s, sep)) == s[LastIndexOf(s, sep) + 1..]
  {
    SplitLastShape(s, sep);
    LastIndexOfEnd(s, sep, Last(Split(s, sep)));
  }

  /** The last element of a nonempty sequence. */
  function Last<T>(xs: seq<T>): T
    requires |xs| >= 1
  {
    xs[|xs| - 1]
  }

  /** `p` could be the last piece of splitting `s` at `sep`: it holds no
      separator, ends `s`, and is either all of `s` or preceded by a
      separator. */
  predicate EndPiece(s: string, p: string, sep: char)
  {
    sep !in p && EndsWith(s, p) && (|p| == |s| || s[|s| - |p| - 1] == sep)
  }

  /** The last piece of a split is an end piece. */
  lemma {:induction false} SplitLastShape(s: string, sep: char)
    ensures EndPiece(s, Last(Split(s, sep)), sep)
    decreases |s|
  {
    var i := IndexOf(s, sep);
    if i >= 0 {
      SplitLastShape(s[i + 1..], sep);
      SplitLastStep(s, sep, i, s[i + 1..]);
    } else {
      SplitWhole(s, sep);
    }
  }

  /** An end piece after the first separator is the end piece of the
      whole split. */
  lemma SplitLastStep(s: string, sep: char, i: nat, rest: string)
    requires i == IndexOf(s, sep) && rest == s[i + 1..]
    requires EndPiece(rest, Last(Split(rest, sep)), sep)
    ensures EndPiece(s, Last(Split(s, sep)), sep)
  {
    SplitCons(s, sep);
    LastOfCons(s[..i], Split(rest, sep));
    assert Last(Split(s, sep)) == Last(Split(rest, sep));
    EndPieceOfSuffix(s, sep, i, rest, Last(Split(rest, sep)));
  }

  /** Without a separator the split is the string alone, an end piece of
      itself. */
  lemma SplitWhole(s: string, sep: char)
    requires IndexOf(s, sep) < 0
    ensures Split(s, sep) == [s] && Last([s]) == s && EndPiece(s, s, sep)
  {
    assert s[|s| - |s|..] == s;
  }

  /** An end piece of the text after a separator at `i` is an end piece of
      `s`. */
  lemma EndPieceOfSuffix(s: string, sep: char, i: nat, rest: string, p: string)
    requires i < |s| && s[i] == sep && rest == s[i + 1..]
    requires EndPiece(rest, p, sep)
    ensures EndPiece(s, p, sep)
  {
    DropDrop(s, i + 1, |rest| - |p|);
    if |p| < |rest| {
      assert rest[|rest| - |p| - 1] == s[|s| - |p| - 1];
    }
  }

  /** An end piece is what follows the last separator. */
  lemma LastIndexOfEnd(s: string, sep: char, p: string)
    requires EndPiece(s, p, sep)
    ensures s[LastIndexOf(s, sep) + 1..] == p
  {
    if |p| < |s| {
      var k := |s| - |p| - 1;
      assert s[k + 1..] == p;
      LastIndexOfIs(s, sep, k);
    } else {
      assert s == p;
    }
  }

  /** The last element of a list with an element put in front. */
  lemma LastOfCons<T>(x: T, xs: seq<T>)
    requires |xs| >= 1
    ensures Last([x] + xs) == Last(xs)
  {
  }

  /** Dropping `a` elements and then `b` drops `a + b`. */
  lemma DropDrop<T>(s: seq<T>, a: nat, b: nat)
    requires a + b <= |s|
    ensures s[a..][b..] == s[a + b..]
  {
  }

  /** The last occurrence is the one with no occurrence after it. */
  lemma {:induction false} LastIndexOfIs(s: string, c: char, k: nat)
    requires k < |s| && s[k] == c && c !in s[k + 1..]
    ensures LastIndexOf(s, c) == k
    decreases |s|
  {
    if s[|s| - 1] != c {
      assert k < |s| - 1;
      assert s[..|s| - 1][k + 1..] == s[k + 1..|s| - 1];
      LastIndexOfIs(s[..|s| - 1], c, k);
    }
  }

  /** ASCII lower-casing of one character. */
  function ToLowerChar(c: char): char
  {
    if 'A' <= c <= 'Z' then (c as int + 32) as char else c
  }

  function ToLower(s: string): (r: string)
    ensures |r| == |s|
    ensures forall k :: 0 <= k < |s| ==> r[k] == ToLowerChar(s[k])
  {
    if s == [] then "" else [ToLowerChar(s[0])] + ToLower(s[1..])
  }

  predicate IsDigit(c: char) { '0' <= c <= '9' }

  predicate AllDigits(s: string) { forall k :: 0 <= k < |s| ==> IsDigit(s[k]) }

  function DigitChar(d: nat): (c: char)
    requires d < 10
    ensures IsDigit(c) && c as int - '0' as int == d
  {
    ('0' as int + d) as char
  }

  /** The value of a string of decimal digits. */
  function DigitsValue(s: string): nat
    requires AllDigits(s)
  {
    if s == [] then 0
    else 10 * DigitsValue(s[..|s| - 1]) + (s[|s| - 1] as int - '0' as int)
  }

  /** `strconv.Itoa` on a natural number. */
  function NatToDecimal(n: nat): (r: string)
    ensures |r| >= 1 && AllDigits(r)
    ensures r[0] != '0' || n == 0
  {
    if n < 10 then [DigitChar(n)] else NatToDecimal(n / 10) + [DigitChar(n % 10)]
  }

  /** `strconv.Itoa` / `fmt.Sprintf("%d", i)`. */
  function IntToDecimal(i: int): string
  {
    if i < 0 then "-" + NatToDecimal(-i) else NatToDecimal(i)
  }

  lemma {:induction false} DigitsValueOfNat(n: nat)
    ensures DigitsValue(NatToDecimal(n)) == n
  {
    if n >= 10 {
      var s := NatToDecimal(n);
      assert s[..|s| - 1] == NatToDecimal(n / 10);
      DigitsValueOfNat(n / 10);
    }
  }

  /** `strconv.Atoi`: an optional sign followed by at least one decimal
      digit, whose value must fit in 64 bits. */
  function Atoi(s: string): (r: Result<int>)
    ensures r.Ok? ==> IsInt64(r.value)
  {
    var negative := |s| > 0 && s[0] == '-';
    var digits := if |s| > 0 && (s[0] == '+' || s[0] == '-') then s[1..] else s;
    if digits == [] || !AllDigits(digits) then
      Err(Message("strconv.Atoi: parsing \"" + s + "\": invalid syntax"))
    else
      var m: int := DigitsValue(digits);
      var v := if negative then -m else m;
      if IsInt64(v) then Ok(v)
      else Err(Message("strconv.Atoi: parsing \"" + s + "\": value out of range"))
  }

  /** Parsing the decimal text of a 64-bit integer gives the integer back. */
  lemma AtoiOfDecimal(i: int)
    requires IsInt64(i)
    ensures Atoi(IntToDecimal(i)) == Ok(i)
  {
    var s := IntToDecimal(i);
    if i < 0 {
      var d := NatToDecimal(-i);
      assert s == "-" + d;
      assert s[0] == '-' && s[1..] == d;
      DigitsValueOfNat(-i);
      assert DigitsValue(d) == -i;
    } else {
      var d := NatToDecimal(i);
      assert s == d;
      assert IsDigit(d[0]);
      DigitsValueOfNat(i);
    }
  }
}
