/** The code search page of the console: the helpers that decide how a hit
    is shown, and the page state that remembers which hit is expanded. */
module SearchPage {
  import opened Wrappers
  import opened Strings
  import Api = GqlModel

  /** What `path.split('.').pop()` gives: the text after the last '.', or
      the whole path when it has none. */
  function Extension(path: string): (ext: string)
    ensures '.' !in ext && EndsWith(path, ext)
    ensures '.' !in path ==> ext == path
    ensures |ext| < |path| ==> path[|path| - |ext| - 1] == '.'
  {
    var i := LastIndexOf(path, '.');
    assert path[|path| - |path[i + 1..]|..] == path[i + 1..];
    path[i + 1..]
  }

  /** The extension is the last piece of the path split at '.'. */
  lemma ExtensionIsLastPiece(path: string)
    ensures var parts := Split(path, '.'); Extension(path) == parts[|parts| - 1]
  {
    SplitLast(path, '.');
  }

  /** `getLanguage`: the highlighter language of a file. */
  function GetLanguage(path: string): (lang: string)
    ensures lang == "javascript" <==> Extension(path) == "js"
    ensures lang == "python" <==> Extension(path) == "py"
    ensures lang == "java" <==> Extension(path) == "java"
    ensures lang == "plaintext" <==> Extension(path) !in {"js", "py", "java"}
  {
    var ext := Extension(path);
    if ext == "js" then "javascript"
    else if ext == "py" then "python"
    else if ext == "java" then "java"
    else "plaintext"
  }

  datatype Processed = Processed(content: string, startLine: int)

  /** `processContent`: a leading line break is dropped and counted as a
      line. */
  function ProcessContent(content: string, startLine: int): (r: Processed)
    ensures EndsWith(content, r.content)
    ensures r.startLine == startLine + (|content| - |r.content|)
    ensures |content| - |r.content| <= 1
    ensures r.startLine == startLine + 1 <==> StartsWith(content, "\n")
    ensures r.startLine == startLine + 1 ==> content == "\n" + r.content
  {
    if StartsWith(content, "\n") then
      assert content == "\n" + content[1..];
      Processed(content[1..], startLine + 1)
    else Processed(content, startLine)
  }

  /** How many lines a collapsed hit shows. */
  const PreviewLines := 5

  function Lines(content: string): (lines: seq<string>)
    ensures |lines| >= 1
  {
    Split(content, '\n')
  }

  /** The first five lines of a hit, joined back with line breaks. */
  function Preview(content: string): string
  {
    var lines := Lines(content);
    Join(lines[..if |lines| < PreviewLines then |lines| else PreviewLines], "\n")
  }

  /** The expand button appears only for hits with more than five lines. */
  predicate HasExpandButton(content: string)
  {
    |Lines(content)| > PreviewLines
  }

  lemma {:induction false} JoinPrefix(parts: seq<string>, k: nat, sep: string)
    requires 1 <= k <= |parts|
    ensures StartsWith(Join(parts, sep), Join(parts[..k], sep))
    decreases k
  {
    if k > 1 {
      JoinPrefix(parts[1..], k - 1, sep);
      assert parts[..k][1..] == parts[1..][..k - 1];
    }
  }

  /** A collapsed hit shows the beginning of its content, and all of it when
      there is no expand button. */
  lemma PreviewIsPrefix(content: string)
    ensures StartsWith(content, Preview(content))
    ensures !HasExpandButton(content) ==> Preview(content) == content
  {
    var lines := Lines(content);
    JoinSplit(content, '\n');
    JoinPrefix(lines, if |lines| < PreviewLines then |lines| else PreviewLines, "\n");
    assert lines[..|lines|] == lines;
  }

  /** The query sent by the search button: always page 1 with 5 hits. */
  function SearchRequest(query: string): (q: Api.QueryInput)
    ensures q.query == query && q.page == Some(1) && q.limit == Some(5)
  {
    Api.QueryInput(query, Some(1), Some(5))
  }

  /** The page state: the hits shown and the id of the expanded one. */
  class CodeSearchPage {
    var codeChunks: seq<Api.SearchResult>
    var expandedId: Option<string>

    constructor ()
      ensures codeChunks == [] && expandedId == None
    {
      codeChunks := [];
      expandedId := None;
    }

    predicate IsExpanded(id: string)
      reads this
    {
      expandedId == Some(id)
    }

    /** `toggleExpand`: the same id collapses, any other id becomes the only
        expanded one. */
    method ToggleExpand(id: string)
      modifies this
      ensures IsExpanded(id) <==> !old(IsExpanded(id))
      ensures forall other :: other != id ==> !IsExpanded(other)
      ensures codeChunks == old(codeChunks)
    {
      expandedId := if expandedId == Some(id) then None else Some(id);
    }

    /** The answer of a search replaces the hits shown. */
    method SetCodeChunks(results: seq<Api.SearchResult>)
      modifies this
      ensures codeChunks == results && expandedId == old(expandedId)
    {
      codeChunks := results;
    }

    /** The text shown for a hit. */
    function Shown(r: Api.SearchResult): (text: string)
      reads this
      ensures StartsWith(ProcessContent(r.content, r.startLine).content, text)
    {
      var p := ProcessContent(r.content, r.startLine);
      PreviewIsPrefix(p.content);
      if IsExpanded(r.id) then p.content else Preview(p.content)
    }
  }
}
