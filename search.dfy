/** `extractContentWindowIndex` of the search resolver: the text of a hit
    and the line it starts on. */
module Search {
  import opened Wrappers
  import opened Strings

  function Min(a: int, b: int): int { if a < b then a else b }

  /** Cuts `content[startIndex:endIndex]` out of a file, with the end cut
      down to the file's length, and counts the lines before the cut.  A
      start beyond the file passes the range check and then makes the
      slicing panic. */
  method ExtractContentWindowIndex(content: string, startIndex: int, endIndex: int)
    returns (r: Result<(string, int)>)
    ensures startIndex < 0 || endIndex < 0 || startIndex > endIndex ==> r == Err(Message("Invalid index range"))
    ensures 0 <= startIndex <= endIndex && startIndex > |content| ==> r.Err? && r.error.Panic?
    ensures r.Ok? <==> 0 <= startIndex <= endIndex && startIndex <= |content|
    ensures r.Ok? ==>
      r.value.0 == content[startIndex..Min(endIndex, |content|)]
      && r.value.1 == 1 + CountChar(content[..startIndex], '\n')
  {
    if startIndex < 0 || endIndex < 0 || startIndex > endIndex {
      return Err(Message("Invalid index range"));
    }
    var end := endIndex;
    if end > |content| {
      end := |content|;
    }
    if startIndex > |content| {
      return Err(Panic("slice bounds out of range"));
    }
    var startLine := 1;
    var i := 0;
    while i < startIndex
      invariant 0 <= i <= startIndex
      invariant startLine == 1 + CountChar(content[..i], '\n')
    {
      assert content[..i + 1][..i] == content[..i];
      if content[i] == '\n' {
        startLine := startLine + 1;
      }
      i := i + 1;
    }
    return Ok((content[startIndex..end], startLine));
  }

  /** The line count of a start position grows by one across each line
      break. */
  lemma StartLineAdvances(content: string, i: nat, j: nat)
    requires i <= j <= |content|
    ensures CountChar(content[..j], '\n') == CountChar(content[..i], '\n') + CountChar(content[i..j], '\n')
  {
    assert content[..j] == content[..i] + content[i..j];
    CountCharAppend(content[..i], content[i..j], '\n');
  }
}
