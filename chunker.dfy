/** The code chunker of the model server: a source file is cut into lines,
    each line is tokenized, lines longer than the token limit are cut into
    sublines, and sublines are packed greedily into chunks of at most the
    limit.  The tokenizer and its `decode` are inputs. */
module Chunker {
  import opened Wrappers
  import opened Strings

  /** One token of a line: its id and the character offsets it spans. */
  datatype Token = Token(id: int, start: int, end: int)

  /** `encode_plus(line, add_special_tokens=False, return_offsets_mapping=True)`. */
  type Tokenize = string -> seq<Token>

  /** `tokenizer.decode`. */
  type Decode = seq<int> -> string

  /** The limit `process_multiple_files` always chunks with. */
  const MaxTokens: nat := 500

  /** The dictionary of one chunk. */
  datatype Chunk = Chunk(
    chunkId: nat, fileHash: string, code: string,
    startLine: int, endLine: int, startColumn: int, endColumn: int)

  /** Reading `chunk_end_column` before any line had a token. */
  const UnboundEndColumn := Panic("UnboundLocalError: chunk_end_column")

  function Ids(ts: seq<Token>): seq<int>
  {
    seq(|ts|, i requires 0 <= i < |ts| => ts[i].id)
  }

  /** The token ids of all lines, in order. */
  function AllIds(lines: seq<seq<Token>>): seq<int>
  {
    if lines == [] then [] else Ids(lines[0]) + AllIds(lines[1..])
  }

  // --------------------------------------------------------------- sublines

  /** A line of more than `max` tokens cut into sublines of `max` tokens and
      a last one of what is left; a shorter line is one subline. */
  function Sublines(ts: seq<Token>, max: nat): (subs: seq<seq<Token>>)
    requires max >= 1
    ensures ts != [] ==> Fits(subs, max)
    decreases |ts|
  {
    if |ts| <= max then [ts] else [ts[..max]] + Sublines(ts[max..], max)
  }

  /** Every subline holds 1 to `max` tokens. */
  predicate Fits(subs: seq<seq<Token>>, max: nat)
  {
    forall k :: 0 <= k < |subs| ==> 1 <= |subs[k]| <= max
  }

  lemma IdsConcat(a: seq<Token>, b: seq<Token>)
    ensures Ids(a + b) == Ids(a) + Ids(b)
  {
  }

  /** The sublines hold the line's tokens, in order. */
  lemma {:induction false} SublinesKeepTokens(ts: seq<Token>, max: nat)
    requires max >= 1
    ensures AllIds(Sublines(ts, max)) == Ids(ts)
    decreases |ts|
  {
    if |ts| > max {
      var subs := Sublines(ts, max);
      assert subs[0] == ts[..max] && subs[1..] == Sublines(ts[max..], max);
      SublinesKeepTokens(ts[max..], max);
      IdsConcat(ts[..max], ts[max..]);
      assert ts[..max] + ts[max..] == ts;
    } else {
      assert Sublines(ts, max)[1..] == [];
    }
  }

  /** The `range(0, len(tokens), max_token_length)` loop. */
  method SplitLine(tokens: seq<Token>, max: nat) returns (sublines: seq<seq<Token>>)
    requires max >= 1
    ensures sublines == Sublines(tokens, max)
  {
    if |tokens| <= max {
      return [tokens];
    }
    sublines := [];
    var i := 0;
    while i < |tokens|
      invariant 0 <= i <= |tokens|
      invariant i < |tokens| ==> sublines + Sublines(tokens[i..], max) == Sublines(tokens, max)
      invariant i == |tokens| ==> sublines == Sublines(tokens, max)
      decreases |tokens| - i
    {
      var rest := tokens[i..];
      var end := if i + max < |tokens| then i + max else |tokens|;
      if end < |tokens| {
        assert rest[..max] == tokens[i..end] && rest[max..] == tokens[end..];
        assert (sublines + [tokens[i..end]]) + Sublines(tokens[end..], max) == sublines + Sublines(rest, max);
      } else {
        assert tokens[i..end] == rest;
      }
      sublines := sublines + [tokens[i..end]];
      i := end;
    }
  }

  // ---------------------------------------------------------------- packing

  /** A finished chunk before decoding: its token ids and its position. */
  datatype Piece = Piece(tokens: seq<int>, startLine: int, endLine: int, startColumn: int, endColumn: int)

  /** The loop's state: the finished chunks, the tokens of the chunk being
      filled, where it starts, and the end column of its last token once one
      has been placed. */
  datatype Packer = Packer(done: seq<Piece>, current: seq<int>, startLine: int, startColumn: int, endColumn: Option<int>)

  const Start := Packer([], [], 1, 0, None)

  function TokensOf(pieces: seq<Piece>): seq<int>
  {
    if pieces == [] then [] else pieces[0].tokens + TokensOf(pieces[1..])
  }

  lemma {:induction false} TokensOfAppend(pieces: seq<Piece>, x: Piece)
    ensures TokensOf(pieces + [x]) == TokensOf(pieces) + x.tokens
  {
    if pieces != [] {
      assert (pieces + [x])[1..] == pieces[1..] + [x];
      TokensOfAppend(pieces[1..], x);
    } else {
      assert [x][1..] == [];
    }
  }

  /** Every token placed so far, in order. */
  function Flat(p: Packer): seq<int>
  {
    TokensOf(p.done) + p.current
  }

  /** What the loop keeps: finished chunks hold 1 to `max` tokens, the open
      chunk at most `max`; an end column is known exactly when the open chunk
      has tokens, which it has once a chunk is finished; each finished chunk
      ends on the line the next one starts on. */
  ghost predicate Inv(p: Packer, max: nat)
  {
    && (forall k :: 0 <= k < |p.done| ==> 1 <= |p.done[k].tokens| <= max)
    && |p.current| <= max
    && (p.endColumn.Some? <==> p.current != [])
    && (p.done != [] ==> p.current != [])
    && (forall k :: 0 <= k < |p.done| - 1 ==> p.done[k].endLine == p.done[k + 1].startLine)
    && (p.done != [] ==> p.done[|p.done| - 1].endLine == p.startLine)
  }

  /** One subline: it joins the open chunk if both fit in `max` tokens;
      otherwise the open chunk is finished, ending on this line, and the
      subline opens the next one. */
  function Place(p: Packer, sub: seq<Token>, line: int, max: nat): (r: Packer)
    requires Inv(p, max) && 1 <= |sub| <= max
    ensures Inv(r, max)
    ensures Flat(r) == Flat(p) + Ids(sub)
  {
    if |p.current| + |sub| <= max then
      p.(current := p.current + Ids(sub), endColumn := Some(sub[|sub| - 1].end))
    else
      var finished := Piece(p.current, p.startLine, line, p.startColumn, p.endColumn.value);
      TokensOfAppend(p.done, finished);
      Packer(p.done + [finished], Ids(sub), line, sub[0].start, Some(sub[|sub| - 1].end))
  }

  function PlaceAll(p: Packer, subs: seq<seq<Token>>, line: int, max: nat): (r: Packer)
    requires Inv(p, max) && Fits(subs, max)
    ensures Inv(r, max)
    decreases |subs|
  {
    if subs == [] then p else PlaceAll(Place(p, subs[0], line, max), subs[1..], line, max)
  }

  /** One line: a line without tokens is skipped; the sublines of any other
      are placed in turn. */
  function PackLine(p: Packer, ts: seq<Token>, line: int, max: nat): (r: Packer)
    requires Inv(p, max) && max >= 1
    ensures Inv(r, max)
  {
    if ts == [] then p else PlaceAll(p, Sublines(ts, max), line, max)
  }

  /** The loop over the lines, the first of them numbered `line`. */
  function PackLines(p: Packer, lines: seq<seq<Token>>, line: int, max: nat): (r: Packer)
    requires Inv(p, max) && max >= 1
    ensures Inv(r, max)
    decreases |lines|
  {
    if lines == [] then p else PackLines(PackLine(p, lines[0], line, max), lines[1..], line + 1, max)
  }

  /** Placing sublines appends their tokens to those placed before. */
  lemma {:induction false} PlaceAllKeepsTokens(p: Packer, subs: seq<seq<Token>>, line: int, max: nat)
    requires Inv(p, max) && Fits(subs, max)
    ensures Flat(PlaceAll(p, subs, line, max)) == Flat(p) + AllIds(subs)
    decreases |subs|
  {
    if subs != [] {
      var q := Place(p, subs[0], line, max);
      var rest := subs[1..];
      PlaceAllKeepsTokens(q, rest, line, max);
      assert PlaceAll(p, subs, line, max) == PlaceAll(q, rest, line, max);
      assert AllIds(subs) == Ids(subs[0]) + AllIds(rest);
      Associative(Flat(p), Ids(subs[0]), AllIds(rest));
    }
  }

  lemma PackLineKeepsTokens(p: Packer, ts: seq<Token>, line: int, max: nat)
    requires Inv(p, max) && max >= 1
    ensures Flat(PackLine(p, ts, line, max)) == Flat(p) + Ids(ts)
  {
    if ts != [] {
      SublinesKeepTokens(ts, max);
      PlaceAllKeepsTokens(p, Sublines(ts, max), line, max);
    }
  }

  /** Packing lines appends their tokens, in order, to those placed before. */
  lemma {:induction false} PackLinesKeepTokens(p: Packer, lines: seq<seq<Token>>, line: int, max: nat)
    requires Inv(p, max) && max >= 1
    ensures Flat(PackLines(p, lines, line, max)) == Flat(p) + AllIds(lines)
    decreases |lines|
  {
    if lines != [] {
      var q := PackLine(p, lines[0], line, max);
      var rest := lines[1..];
      PackLineKeepsTokens(p, lines[0], line, max);
      PackLinesKeepTokens(q, rest, line + 1, max);
      assert PackLines(p, lines, line, max) == PackLines(q, rest, line + 1, max);
      assert AllIds(lines) == Ids(lines[0]) + AllIds(rest);
      Associative(Flat(p), Ids(lines[0]), AllIds(rest));
    }
  }

  lemma Associative(a: seq<int>, b: seq<int>, c: seq<int>)
    ensures (a + b) + c == a + (b + c)
  {
  }

  /** The chunks before decoding: the finished ones and the open one, which
      ends on the last line; reading the end column fails when no line had a
      token. */
  function Pieces(lines: seq<seq<Token>>, max: nat): Result<seq<Piece>>
    requires max >= 1
  {
    var p := PackLines(Start, lines, 1, max);
    if p.endColumn.None? then Err(UnboundEndColumn)
    else Ok(p.done + [Piece(p.current, p.startLine, |lines|, p.startColumn, p.endColumn.value)])
  }

  /** Chunking fails exactly when no line has a token.  Otherwise the
      chunks are in order and of the allowed size, and they hold all tokens
      of all lines in order. */
  lemma PiecesProperties(lines: seq<seq<Token>>, max: nat)
    requires max >= 1
    ensures Pieces(lines, max).Ok? <==> AllIds(lines) != []
    ensures Pieces(lines, max).Ok? ==>
      ChunkedInOrder(Pieces(lines, max).value, max, |lines|)
      && TokensOf(Pieces(lines, max).value) == AllIds(lines)
  {
    var p := PackLines(Start, lines, 1, max);
    assert Flat(Start) == [];
    PackLinesKeepTokens(Start, lines, 1, max);
    if p.current == [] {
      assert p.done == [];
      assert Flat(p) == [];
    } else {
      var last := Piece(p.current, p.startLine, |lines|, p.startColumn, p.endColumn.value);
      assert Pieces(lines, max).value == p.done + [last];
      assert |Flat(p)| >= |p.current|;
      FinishPieces(p, |lines|, max);
    }
  }

  /** Chunks of 1 to `max` tokens, at least one, each ending on the line the
      next starts on, the last ending on line `lineCount`. */
  ghost predicate ChunkedInOrder(ps: seq<Piece>, max: nat, lineCount: int)
  {
    && |ps| >= 1
    && (forall k :: 0 <= k < |ps| ==> 1 <= |ps[k].tokens| <= max)
    && (forall k :: 0 <= k < |ps| - 1 ==> ps[k].endLine == ps[k + 1].startLine)
    && ps[|ps| - 1].endLine == lineCount
  }

  /** Finishing the open chunk on `lastLine` gives chunks in order that
      hold every token placed. */
  lemma FinishPieces(p: Packer, lastLine: int, max: nat)
    requires Inv(p, max) && p.current != []
    ensures var ps := p.done + [Piece(p.current, p.startLine, lastLine, p.startColumn, p.endColumn.value)];
      ChunkedInOrder(ps, max, lastLine) && TokensOf(ps) == Flat(p)
  {
    var last := Piece(p.current, p.startLine, lastLine, p.startColumn, p.endColumn.value);
    var ps := p.done + [last];
    TokensOfAppend(p.done, last);
    forall k | 0 <= k < |ps| ensures 1 <= |ps[k].tokens| <= max {
      if k < |p.done| {
        assert ps[k] == p.done[k];
      }
    }
    forall k | 0 <= k < |ps| - 1 ensures ps[k].endLine == ps[k + 1].startLine {
      assert ps[k] == p.done[k];
      if k + 1 < |p.done| {
        assert ps[k + 1] == p.done[k + 1];
      }
    }
  }

  /** The chunk dictionaries: numbered from 0 in order, each carrying the
      file's hash and its decoded tokens. */
  function ChunksOf(pieces: seq<Piece>, hash: string, decode: Decode): (cs: seq<Chunk>)
    ensures |cs| == |pieces|
    ensures forall i :: 0 <= i < |cs| ==> cs[i].chunkId == i && cs[i].fileHash == hash
    ensures forall i :: 0 <= i < |cs| ==>
      cs[i].code == decode(pieces[i].tokens)
      && cs[i].startLine == pieces[i].startLine && cs[i].endLine == pieces[i].endLine
      && cs[i].startColumn == pieces[i].startColumn && cs[i].endColumn == pieces[i].endColumn
  {
    seq(|pieces|, i requires 0 <= i < |pieces| =>
      Chunk(i, hash, decode(pieces[i].tokens), pieces[i].startLine, pieces[i].endLine,
            pieces[i].startColumn, pieces[i].endColumn))
  }

  /** The tokens of each line of the code, the newline put back. */
  function TokenLines(lines: seq<string>, tokenize: Tokenize): (ts: seq<seq<Token>>)
    ensures |ts| == |lines| && forall i :: 0 <= i < |lines| ==> ts[i] == tokenize(lines[i] + "\n")
  {
    seq(|lines|, i requires 0 <= i < |lines| => tokenize(lines[i] + "\n"))
  }

  /** `chunk_code`. */
  function ChunkCodeSpec(code: string, hash: string, max: nat, tokenize: Tokenize, decode: Decode): Result<seq<Chunk>>
    requires max >= 1
  {
    match Pieces(TokenLines(Split(code, '\n'), tokenize), max)
    case Err(e) => Err(e)
    case Ok(ps) => Ok(ChunksOf(ps, hash, decode))
  }

  /** `chunk_code`: the loop over the lines; the loop over the sublines of
      each line is `PlaceSublines`.  `range` with a step of 0 raises, so the
      limit is at least 1. */
  method ChunkCode(code: string, hash: string, max: nat, tokenize: Tokenize, decode: Decode)
    returns (r: Result<seq<Chunk>>)
    requires max >= 1
    ensures r == ChunkCodeSpec(code, hash, max, tokenize, decode)
  {
    var lines := Split(code, '\n');
    ghost var tokenLines := TokenLines(lines, tokenize);
    ghost var final := PackLines(Start, tokenLines, 1, max);
    var chunks: seq<Chunk> := [];
    var currentChunk: seq<int> := [];
    var currentLine := 1;
    var chunkStartLine := 1;
    var chunkStartColumn := 0;
    var chunkEndColumn: Option<int> := None;
    ghost var done: seq<Piece> := [];
    for i := 0 to |lines|
      invariant currentLine == i + 1
      invariant Inv(Packer(done, currentChunk, chunkStartLine, chunkStartColumn, chunkEndColumn), max)
      invariant chunks == ChunksOf(done, hash, decode)
      invariant PackLines(Packer(done, currentChunk, chunkStartLine, chunkStartColumn, chunkEndColumn), tokenLines[i..], i + 1, max) == final
    {
      ghost var s0 := Packer(done, currentChunk, chunkStartLine, chunkStartColumn, chunkEndColumn);
      var tokens := tokenize(lines[i] + "\n");
      assert tokenLines[i..][0] == tokens && tokenLines[i..][1..] == tokenLines[i + 1..];
      assert PackLines(s0, tokenLines[i..], i + 1, max) == PackLines(PackLine(s0, tokens, i + 1, max), tokenLines[i + 1..], i + 2, max);
      if tokens == [] {
        currentLine := currentLine + 1;
        continue;
      }
      var sublines := SplitLine(tokens, max);
      chunks, currentChunk, chunkStartLine, chunkStartColumn, chunkEndColumn, done :=
        PlaceSublines(sublines, currentLine, max, hash, decode, chunks, currentChunk, chunkStartLine, chunkStartColumn, chunkEndColumn, done);
      currentLine := currentLine + 1;
    }
    if chunkEndColumn.None? {
      return Err(UnboundEndColumn);
    }
    chunks, done := EmitChunk(chunks, currentChunk, chunkStartLine, currentLine - 1, chunkStartColumn, chunkEndColumn.value, hash, decode, done);
    r := Ok(chunks);
  }

  /** `chunks.append` of the decoded chunk, numbered `len(chunks)`. */
  method EmitChunk(chunks0: seq<Chunk>, tokens: seq<int>, startLine: int, endLine: int, startColumn: int, endColumn: int,
                   hash: string, decode: Decode, ghost done0: seq<Piece>)
    returns (chunks: seq<Chunk>, ghost done: seq<Piece>)
    requires chunks0 == ChunksOf(done0, hash, decode)
    ensures done == done0 + [Piece(tokens, startLine, endLine, startColumn, endColumn)]
    ensures chunks == ChunksOf(done, hash, decode)
  {
    var chunkCode := decode(tokens);
    done := done0 + [Piece(tokens, startLine, endLine, startColumn, endColumn)];
    ChunksOfAppend(done0, Piece(tokens, startLine, endLine, startColumn, endColumn), hash, decode);
    chunks := chunks0 + [Chunk(|chunks0|, hash, chunkCode, startLine, endLine, startColumn, endColumn)];
  }

  /** The loop over the sublines of one line: a subline that fits joins the
      open chunk; otherwise the open chunk is decoded and emitted with the
      next number, and the subline opens a new one. */
  method PlaceSublines(sublines: seq<seq<Token>>, line: int, max: nat, hash: string, decode: Decode,
                       chunks0: seq<Chunk>, chunk0: seq<int>, startLine0: int, startColumn0: int, endColumn0: Option<int>,
                       ghost done0: seq<Piece>)
    returns (chunks: seq<Chunk>, currentChunk: seq<int>, chunkStartLine: int, chunkStartColumn: int, chunkEndColumn: Option<int>,
             ghost done: seq<Piece>)
    requires Inv(Packer(done0, chunk0, startLine0, startColumn0, endColumn0), max)
    requires Fits(sublines, max)
    requires chunks0 == ChunksOf(done0, hash, decode)
    ensures Packer(done, currentChunk, chunkStartLine, chunkStartColumn, chunkEndColumn)
      == PlaceAll(Packer(done0, chunk0, startLine0, startColumn0, endColumn0), sublines, line, max)
    ensures chunks == ChunksOf(done, hash, decode)
  {
    chunks, currentChunk, chunkStartLine, chunkStartColumn, chunkEndColumn, done :=
      chunks0, chunk0, startLine0, startColumn0, endColumn0, done0;
    var currentTokenCount := |currentChunk|;
    ghost var before := Packer(done, currentChunk, chunkStartLine, chunkStartColumn, chunkEndColumn);
    assert sublines[0..] == sublines;
    for j := 0 to |sublines|
      invariant currentTokenCount == |currentChunk|
      invariant Inv(Packer(done, currentChunk, chunkStartLine, chunkStartColumn, chunkEndColumn), max)
      invariant chunks == ChunksOf(done, hash, decode)
      invariant Fits(sublines[j..], max)
      invariant PlaceAll(Packer(done, currentChunk, chunkStartLine, chunkStartColumn, chunkEndColumn), sublines[j..], line, max)
        == PlaceAll(before, sublines, line, max)
    {
      var sub := sublines[j];
      PlaceAllStep(Packer(done, currentChunk, chunkStartLine, chunkStartColumn, chunkEndColumn), sublines, j, line, max);
      chunks, currentChunk, currentTokenCount, chunkStartLine, chunkStartColumn, chunkEndColumn, done :=
        PlaceSubline(sub, line, max, hash, decode, chunks, currentChunk, currentTokenCount, chunkStartLine, chunkStartColumn, chunkEndColumn, done);
    }
    assert sublines[|sublines|..] == [];
  }

  /** Placing the sublines from `j` on is placing subline `j`, then those
      after it. */
  lemma PlaceAllStep(p: Packer, subs: seq<seq<Token>>, j: nat, line: int, max: nat)
    requires Inv(p, max) && j < |subs| && Fits(subs[j..], max)
    ensures 1 <= |subs[j]| <= max && Fits(subs[j + 1..], max)
    ensures PlaceAll(p, subs[j..], line, max) == PlaceAll(Place(p, subs[j], line, max), subs[j + 1..], line, max)
  {
    assert subs[j..][0] == subs[j];
    assert subs[j..][1..] == subs[j + 1..];
  }

  /** The body of that loop, for one subline. */
  method PlaceSubline(sub: seq<Token>, line: int, max: nat, hash: string, decode: Decode,
                      chunks0: seq<Chunk>, chunk0: seq<int>, count0: nat, startLine0: int, startColumn0: int, endColumn0: Option<int>,
                      ghost done0: seq<Piece>)
    returns (chunks: seq<Chunk>, currentChunk: seq<int>, currentTokenCount: nat, chunkStartLine: int, chunkStartColumn: int,
             chunkEndColumn: Option<int>, ghost done: seq<Piece>)
    requires Inv(Packer(done0, chunk0, startLine0, startColumn0, endColumn0), max)
    requires 1 <= |sub| <= max && count0 == |chunk0|
    requires chunks0 == ChunksOf(done0, hash, decode)
    ensures Packer(done, currentChunk, chunkStartLine, chunkStartColumn, chunkEndColumn)
      == Place(Packer(done0, chunk0, startLine0, startColumn0, endColumn0), sub, line, max)
    ensures currentTokenCount == |currentChunk|
    ensures chunks == ChunksOf(done, hash, decode)
  {
    if count0 + |sub| <= max {
      chunks, done := chunks0, done0;
      currentChunk := chunk0 + Ids(sub);
      currentTokenCount := count0 + |sub|;
      chunkStartLine, chunkStartColumn := startLine0, startColumn0;
      chunkEndColumn := Some(sub[|sub| - 1].end);
    } else {
      chunks, done := EmitChunk(chunks0, chunk0, startLine0, line, startColumn0, endColumn0.value, hash, decode, done0);
      currentChunk := Ids(sub);
      currentTokenCount := |sub|;
      chunkStartLine := line;
      chunkStartColumn := sub[0].start;
      chunkEndColumn := Some(sub[|sub| - 1].end);
    }
  }

  lemma ChunksOfAppend(pieces: seq<Piece>, x: Piece, hash: string, decode: Decode)
    ensures ChunksOf(pieces + [x], hash, decode) == ChunksOf(pieces, hash, decode)
      + [Chunk(|pieces|, hash, decode(x.tokens), x.startLine, x.endLine, x.startColumn, x.endColumn)]
  {
    var a := ChunksOf(pieces + [x], hash, decode);
    var b := ChunksOf(pieces, hash, decode);
    forall i | 0 <= i < |pieces| ensures a[i] == b[i] {
      assert (pieces + [x])[i] == pieces[i];
    }
  }

  // ------------------------------------------------------------- file lists

  /** One entry of the request's `instances`. */
  datatype FileInput = FileInput(path: string, code: string, hash: string)

  /** How one file is chunked: `chunk_code` with the file's code and hash
      and the limit of 500. */
  type ChunkFile = FileInput -> Result<seq<Chunk>>

  function ChunkFileSpec(tokenize: Tokenize, decode: Decode): ChunkFile
  {
    (f: FileInput) => ChunkCodeSpec(f.code, f.hash, MaxTokens, tokenize, decode)
  }

  /** The first loop of `process_multiple_files`: every file's chunks are
      appended to one list, and the file's path is mapped to the range of
      its chunks, a later file overwriting an earlier one with the same
      path.  A failing file fails the request. */
  function ChunkFiles(files: seq<FileInput>, chunk: ChunkFile): (r: Result<(seq<Chunk>, map<string, (nat, nat)>)>)
    ensures r.Ok? ==> forall p :: p in r.value.1 ==> r.value.1[p].0 <= r.value.1[p].1 <= |r.value.0|
  {
    if files == [] then Ok(([], map[]))
    else
      var n := |files| - 1;
      match ChunkFiles(files[..n], chunk)
      case Err(e) => Err(e)
      case Ok((chunks, ranges)) =>
        match chunk(files[n])
        case Err(e) => Err(e)
        case Ok(cs) =>
          var all := chunks + cs;
          Ok((all, ranges[files[n].path := (|all| - |cs|, |all|)]))
  }

  /** Every file's chunks follow those of the files before it; the range of
      a path is where the chunks of the last file with that path sit. */
  lemma {:induction false} LastFileWins(files: seq<FileInput>, chunk: ChunkFile, i: nat)
    requires ChunkFiles(files, chunk).Ok? && i < |files|
    requires forall j :: i < j < |files| ==> files[j].path != files[i].path
    ensures chunk(files[i]).Ok?
    ensures
      var (all, ranges) := ChunkFiles(files, chunk).value;
      files[i].path in ranges
      && all[ranges[files[i].path].0..ranges[files[i].path].1] == chunk(files[i]).value
  {
    var n := |files| - 1;
    var front := files[..n];
    if i == n {
      assert ChunkFiles(front, chunk).Ok?;
    } else {
      assert forall j :: i < j < |front| ==> front[j] == files[j];
      assert front[i] == files[i];
      LastFileWins(front, chunk, i);
      var (chunks, ranges) := ChunkFiles(front, chunk).value;
      var cs := chunk(files[n]).value;
      var s := ranges[files[i].path].0;
      var e := ranges[files[i].path].1;
      assert (chunks + cs)[s..e] == chunks[s..e];
    }
  }

  /** A path is answered exactly when some file has it. */
  lemma {:induction false} AnsweredPaths(files: seq<FileInput>, chunk: ChunkFile, path: string)
    requires ChunkFiles(files, chunk).Ok?
    ensures path in ChunkFiles(files, chunk).value.1 <==> exists i :: 0 <= i < |files| && files[i].path == path
  {
    if files != [] {
      var n := |files| - 1;
      var front := files[..n];
      assert forall j :: 0 <= j < n ==> front[j] == files[j];
      AnsweredPaths(front, chunk, path);
      if path == files[n].path {
        assert files[n].path == path;
      } else if exists i :: 0 <= i < |files| && files[i].path == path {
        var i :| 0 <= i < |files| && files[i].path == path;
        assert front[i].path == path;
      }
    }
  }

  /** The answer of `process_multiple_files` without the embeddings: each
      path maps to the chunks in its range. */
  function Answer(all: seq<Chunk>, ranges: map<string, (nat, nat)>): (m: map<string, seq<Chunk>>)
    requires forall p :: p in ranges ==> ranges[p].0 <= ranges[p].1 <= |all|
    ensures m.Keys == ranges.Keys
  {
    map p | p in ranges :: all[ranges[p].0..ranges[p].1]
  }

  function ProcessFilesSpec(files: seq<FileInput>, tokenize: Tokenize, decode: Decode): Result<map<string, seq<Chunk>>>
  {
    match ChunkFiles(files, ChunkFileSpec(tokenize, decode))
    case Err(e) => Err(e)
    case Ok((all, ranges)) => Ok(Answer(all, ranges))
  }

  /** `process_multiple_files`, with the encoding of the chunks left out. */
  method ProcessMultipleFiles(files: seq<FileInput>, tokenize: Tokenize, decode: Decode)
    returns (r: Result<map<string, seq<Chunk>>>)
    ensures r == ProcessFilesSpec(files, tokenize, decode)
  {
    ghost var chunk := ChunkFileSpec(tokenize, decode);
    var allChunks: seq<Chunk> := [];
    var fileChunkMap: map<string, (nat, nat)> := map[];
    for i := 0 to |files|
      invariant ChunkFiles(files[..i], chunk) == Ok((allChunks, fileChunkMap))
    {
      var chunks := ChunkCode(files[i].code, files[i].hash, MaxTokens, tokenize, decode);
      assert chunks == chunk(files[i]);
      assert files[..i + 1][..i] == files[..i];
      if chunks.Err? {
        ChunkFilesFailsOn(files, chunk, i + 1);
        return Err(chunks.error);
      }
      allChunks := allChunks + chunks.value;
      fileChunkMap := fileChunkMap[files[i].path := (|allChunks| - |chunks.value|, |allChunks|)];
    }
    assert files[..|files|] == files;
    var results := CollectRanges(allChunks, fileChunkMap);
    return Ok(results);
  }

  /** The second loop of `process_multiple_files`: one entry per path, in
      no particular order. */
  method CollectRanges(all: seq<Chunk>, ranges: map<string, (nat, nat)>) returns (results: map<string, seq<Chunk>>)
    requires forall p :: p in ranges ==> ranges[p].0 <= ranges[p].1 <= |all|
    ensures results == Answer(all, ranges)
  {
    results := map[];
    var paths := ranges.Keys;
    while paths != {}
      invariant paths <= ranges.Keys
      invariant results.Keys == ranges.Keys - paths
      invariant forall p :: p in results ==> results[p] == all[ranges[p].0..ranges[p].1]
      decreases |paths|
    {
      var p :| p in paths;
      var (start, end) := ranges[p];
      results := results[p := all[start..end]];
      paths := paths - {p};
    }
  }

  /** A failing prefix fails the whole list with the same error. */
  lemma {:induction false} ChunkFilesFailsOn(files: seq<FileInput>, chunk: ChunkFile, i: nat)
    requires i <= |files| && ChunkFiles(files[..i], chunk).Err?
    ensures ChunkFiles(files, chunk) == ChunkFiles(files[..i], chunk)
    decreases |files|
  {
    if i < |files| {
      var n := |files| - 1;
      assert files[..n][..i] == files[..i];
      ChunkFilesFailsOn(files[..n], chunk, i);
    } else {
      assert files[..i] == files;
    }
  }

  // ----------------------------------------------------------------- affixes

  /** `remove_prefix`. */
  function RemovePrefix(s: string, prefix: string): string
  {
    if StartsWith(s, prefix) then s[|prefix|..] else s
  }

  /** One leading occurrence is stripped, or nothing changes. */
  lemma RemovePrefixStripsOnce(s: string, prefix: string)
    ensures StartsWith(s, prefix) ==> prefix + RemovePrefix(s, prefix) == s
    ensures !StartsWith(s, prefix) ==> RemovePrefix(s, prefix) == s
  {
    if StartsWith(s, prefix) {
      assert s[..|prefix|] + s[|prefix|..] == s;
    }
  }

  /** `remove_suffix` as written: `s[:-len(suffix)]`, which is `s[:0]` for
      an empty suffix. */
  function RemoveSuffix(s: string, suffix: string): string
  {
    if EndsWith(s, suffix) then (if |suffix| == 0 then "" else s[..|s| - |suffix|]) else s
  }

  /** Removing the empty suffix erases the whole string. */
  lemma RemoveEmptySuffixErases(s: string)
    ensures RemoveSuffix(s, "") == ""
  {
    assert EndsWith(s, "");
  }

  /** `remove_suffix` as evidently intended: the string without the
      suffix. */
  function RemoveSuffixIntended(s: string, suffix: string): string
  {
    if EndsWith(s, suffix) then s[..|s| - |suffix|] else s
  }

  /** The intended removal strips one trailing occurrence, or changes
      nothing; the empty suffix changes nothing. */
  lemma RemoveSuffixIntendedStripsOnce(s: string, suffix: string)
    ensures EndsWith(s, suffix) ==> RemoveSuffixIntended(s, suffix) + suffix == s
    ensures !EndsWith(s, suffix) ==> RemoveSuffixIntended(s, suffix) == s
    ensures RemoveSuffixIntended(s, "") == s
  {
    assert EndsWith(s, "") && s[..|s|] == s;
    if EndsWith(s, suffix) {
      assert s[..|s| - |suffix|] + s[|s| - |suffix|..] == s;
    }
  }
}
