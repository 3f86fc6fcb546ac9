/** Conversions between Repository resources and the API, and the building
    and parsing of repository URLs. */
module RepositoryConverters {
  import opened Wrappers
  import opened Strings
  import Api = GqlModel
  import Crd = CloudApi

  /** `RepositoryCRDToModel`: only GitHub repositories can be shown. */
  function RepositoryCrdToModel(repo: Crd.Repository): (r: Result<Api.Repository>)
    ensures r.Ok? <==> repo.spec.typ == Crd.RepositoryTypeGithub && repo.spec.github.Some?
    ensures r.Ok? ==>
      var gh := repo.spec.github.value;
      r.value == Api.Repository(repo.meta.name, Api.RepositoryTypeGithub, gh.owner + "/" + gh.name,
                                gh.owner, gh.name, gh.url)
    ensures repo.spec.typ !in {Crd.RepositoryTypeGithub, Crd.RepositoryTypeGitlab, Crd.RepositoryTypeBitbucket} ==>
      r == Err(Message("unknown repository type: " + repo.spec.typ))
    ensures repo.spec.typ in {Crd.RepositoryTypeGitlab, Crd.RepositoryTypeBitbucket} ==>
      r == Err(Message("unsupported repository type: " + repo.spec.typ))
  {
    var t := repo.spec.typ;
    if t != Crd.RepositoryTypeGithub && t != Crd.RepositoryTypeGitlab && t != Crd.RepositoryTypeBitbucket then
      Err(Message("unknown repository type: " + t))
    else if t == Crd.RepositoryTypeGithub then
      match repo.spec.github
      case None => Err(Panic("nil pointer dereference: Spec.Github"))
      case Some(gh) =>
        Ok(Api.Repository(repo.meta.name, Api.RepositoryTypeGithub, gh.owner + "/" + gh.name, gh.owner, gh.name, gh.url))
    else
      Err(Message("unsupported repository type: " + t))
  }

  /** `RepositoryURL`: the clone URL of a repository of the given type. */
  function RepositoryUrl(typ: string, owner: string, name: string): (url: string)
    ensures typ == Api.RepositoryTypeGithub ==> url == "https://github.com/" + owner + "/" + name
    ensures typ == Api.RepositoryTypeGitlab ==> url == "https://gitlab.com/" + owner + "/" + name
    ensures typ == Api.RepositoryTypeBitbucket ==> url == "https://bitbucket.org/" + owner + "/" + name
    ensures url == "" <==> !Api.IsValid(Api.RepositoryType, typ)
  {
    if typ == Api.RepositoryTypeGithub then "https://github.com/" + owner + "/" + name
    else if typ == Api.RepositoryTypeGitlab then "https://gitlab.com/" + owner + "/" + name
    else if typ == Api.RepositoryTypeBitbucket then "https://bitbucket.org/" + owner + "/" + name
    else ""
  }

  // The pattern of `SplitRepositoryURL` is
  //   (?:https?://)?(?:www\.)?(?P<type>github|gitlab|bitbucket)\.com/(?P<owner>[^/]+)/(?P<name>[^/.]+)(?:\.git)?
  // and `FindStringSubmatch` returns the leftmost match, preferring what a
  // backtracking matcher finds first.  The optional prefixes never change
  // the captures: their text contains neither 'g' nor 'b', so a match that
  // starts earlier because of a prefix has its host at the first position
  // where the host part matches.  Both quantified groups are greedy and
  // nothing after them constrains them, so `owner` is the longest run of
  // non-'/' characters (which must then be followed by '/') and `name` the
  // longest run of characters other than '/' and '.'.  The matcher below
  // therefore looks for the first position where the host part matches.

  const Hosts: seq<string> := ["github", "gitlab", "bitbucket"]

  /** The first of `hosts` matching at position `p`, followed by ".com/". */
  function HostIn(s: string, p: nat, hosts: seq<string>): (h: Option<string>)
    requires p <= |s|
    ensures h.Some? ==> h.value in hosts && StartsWith(s[p..], h.value + ".com/")
    ensures h.None? ==> forall k :: 0 <= k < |hosts| ==> !StartsWith(s[p..], hosts[k] + ".com/")
    decreases |hosts|
  {
    if hosts == [] then None
    else if StartsWith(s[p..], hosts[0] + ".com/") then Some(hosts[0])
    else
      var h := HostIn(s, p, hosts[1..]);
      assert forall k :: 1 <= k < |hosts| ==> hosts[k] == hosts[1..][k - 1];
      h
  }

  /** The host alternative matching at position `p`, followed by ".com/". */
  function HostAt(s: string, p: nat): (h: Option<string>)
    requires p <= |s|
    ensures h.Some? ==> h.value in Hosts && StartsWith(s[p..], h.value + ".com/")
    ensures h.None? ==> forall k :: 0 <= k < |Hosts| ==> !StartsWith(s[p..], Hosts[k] + ".com/")
    ensures h.Some? ==> s[p] == 'g' || s[p] == 'b'
  {
    var h := HostIn(s, p, Hosts);
    if h.Some? then
      assert s[p] == s[p..][0] == (h.value + ".com/")[0] == h.value[0];
      h
    else h
  }

  /** The characters that end the owner group (`[^/]+`) or, with
      `inName`, the name group (`[^/.]+`). */
  predicate Stops(c: char, inName: bool)
  {
    c == '/' || (inName && c == '.')
  }

  /** Length of the longest run from `i` of characters that do not stop the
      group. */
  function RunLength(s: string, i: nat, inName: bool): (n: nat)
    requires i <= |s|
    ensures i + n <= |s|
    ensures forall k :: i <= k < i + n ==> !Stops(s[k], inName)
    ensures i + n < |s| ==> Stops(s[i + n], inName)
    decreases |s| - i
  {
    if i == |s| || Stops(s[i], inName) then 0 else 1 + RunLength(s, i + 1, inName)
  }

  /** The only value a run length can take: the characters up to it are
      outside `stop` and the next one is in it or there is none. */
  lemma {:induction false} RunLengthIs(s: string, i: nat, inName: bool, n: nat)
    requires i + n <= |s|
    requires forall k :: i <= k < i + n ==> !Stops(s[k], inName)
    requires i + n == |s| || Stops(s[i + n], inName)
    ensures RunLength(s, i, inName) == n
    decreases n
  {
    if n > 0 {
      RunLengthIs(s, i + 1, inName, n - 1);
    }
  }

  datatype UrlMatch = UrlMatch(host: string, owner: string, name: string)

  /** The owner and name groups from position `q`, just after
      "<host>.com/". */
  function CoreAfter(s: string, host: string, q: nat): (m: Option<UrlMatch>)
    requires q <= |s|
    ensures m.Some? ==> m.value.host == host && m.value.owner != [] && m.value.name != []
  {
    var o := RunLength(s, q, false);
    if o == 0 || q + o == |s| then None
    else
      var n := RunLength(s, q + o + 1, true);
      if n == 0 then None
      else Some(UrlMatch(host, s[q..q + o], s[q + o + 1..q + o + 1 + n]))
  }

  /** The match of the host, owner and name groups at position `p`. */
  function CoreAt(s: string, p: nat): (m: Option<UrlMatch>)
    requires p <= |s|
    ensures m.Some? ==> m.value.host in Hosts && m.value.owner != [] && m.value.name != []
  {
    match HostAt(s, p)
    case None => None
    case Some(host) => CoreAfter(s, host, p + |host| + 5)
  }

  /** The leftmost match at or after position `p`. */
  function FirstMatch(s: string, p: nat): (m: Option<UrlMatch>)
    requires p <= |s|
    ensures m.Some? ==> m.value.host in Hosts && m.value.owner != [] && m.value.name != []
    decreases |s| - p
  {
    if CoreAt(s, p).Some? then CoreAt(s, p)
    else if p == |s| then None
    else FirstMatch(s, p + 1)
  }

  /** The host capture mapped to a repository type. */
  function HostType(host: string): string
  {
    if host == "github" then Crd.RepositoryTypeGithub
    else if host == "gitlab" then Crd.RepositoryTypeGitlab
    else Crd.RepositoryTypeBitbucket
  }

  /** `SplitRepositoryURL`: the repository type, owner and name of a URL. */
  function SplitRepositoryUrl(url: string): (r: Result<(string, string, string)>)
    ensures r.Err? ==> r.error == Message("invalid repository URL")
    ensures r.Ok? ==> r.value.1 != [] && r.value.2 != []
  {
    match FirstMatch(url, 0)
    case None => Err(Message("invalid repository URL"))
    case Some(m) => Ok((HostType(m.host), m.owner, m.name))
  }

  /** What a successful match at `p` means: the URL contains the host,
      ".com/", an owner without '/', '/' and a name without '/' or '.'. */
  lemma CoreAtSound(s: string, p: nat)
    requires p <= |s| && CoreAt(s, p).Some?
    ensures var m := CoreAt(s, p).value;
      StartsWith(s[p..], m.host + ".com/" + m.owner + "/" + m.name)
      && '/' !in m.owner && '/' !in m.name && '.' !in m.name
  {
    var host := HostAt(s, p).value;
    CoreAtHost(s, p, host);
    HostHead(s, p, host);
    MatchText(s, p, host + ".com/", host, p + |host| + 5);
  }

  /** Where the host part matches, the text there is the host and ".com/". */
  lemma HostHead(s: string, p: nat, host: string)
    requires p <= |s| && HostAt(s, p) == Some(host)
    ensures p + |host| + 5 <= |s| && s[p..p + |host| + 5] == host + ".com/"
  {
    assert s[p..][..|host| + 5] == s[p..p + |host| + 5];
  }

  /** After `head`, a match of the owner and name groups from `q` makes the
      text start with the head, the owner, '/' and the name. */
  lemma MatchText(s: string, p: nat, head: string, host: string, q: nat)
    requires q == p + |head| <= |s| && s[p..q] == head
    requires CoreAfter(s, host, q).Some?
    ensures var m := CoreAfter(s, host, q).value;
      StartsWith(s[p..], head + m.owner + "/" + m.name)
      && '/' !in m.owner && '/' !in m.name && '.' !in m.name
  {
    CoreAfterSound(s, q, host);
    var m := CoreAfter(s, host, q).value;
    PiecesStartWith(s, p, head, m.owner, m.name);
  }

  /** Where the owner and name groups match from `q`, the text there is the
      owner, '/', and the name, the owner without '/' and the name without
      '/' or '.'. */
  lemma CoreAfterSound(s: string, q: nat, host: string)
    requires q <= |s| && CoreAfter(s, host, q).Some?
    ensures var m := CoreAfter(s, host, q).value; var o := |m.owner|;
      q + o + 1 + |m.name| <= |s|
      && s[q..q + o] == m.owner && s[q + o] == '/' && s[q + o + 1..q + o + 1 + |m.name|] == m.name
      && '/' !in m.owner && '/' !in m.name && '.' !in m.name
  {
    var o := RunLength(s, q, false);
    var n := RunLength(s, q + o + 1, true);
    var owner, name := s[q..q + o], s[q + o + 1..q + o + 1 + n];
    assert CoreAfter(s, host, q).value == UrlMatch(host, owner, name);
    forall k | 0 <= k < |owner| ensures owner[k] != '/' {
      assert owner[k] == s[q + k];
    }
    forall k | 0 <= k < |name| ensures name[k] != '/' && name[k] != '.' {
      assert name[k] == s[q + o + 1 + k];
    }
  }

  /** Text that holds `head`, `owner`, '/' and `name` one after the other
      starts with their concatenation. */
  lemma PiecesStartWith(s: string, p: nat, head: string, owner: string, name: string)
    requires p + |head| + |owner| + 1 + |name| <= |s|
    requires s[p..p + |head|] == head
    requires s[p + |head|..p + |head| + |owner|] == owner
    requires s[p + |head| + |owner|] == '/'
    requires s[p + |head| + |owner| + 1..p + |head| + |owner| + 1 + |name|] == name
    ensures StartsWith(s[p..], head + owner + "/" + name)
  {
    var q := p + |head|;
    var e := q + |owner| + 1 + |name|;
    assert s[p..q] + owner == s[p..q + |owner|];
    assert s[p..q + |owner|] + "/" == s[p..q + |owner| + 1];
    assert s[p..q + |owner| + 1] + name == s[p..e];
    assert s[p..][..e - p] == s[p..e];
  }

  lemma {:induction false} FirstMatchSound(s: string, p: nat)
    requires p <= |s| && FirstMatch(s, p).Some?
    ensures exists i :: p <= i <= |s| && CoreAt(s, i) == FirstMatch(s, p)
    decreases |s| - p
  {
    if CoreAt(s, p).None? {
      FirstMatchSound(s, p + 1);
    }
  }

  /** A parsed URL really contains `<host>.com/<owner>/<name>`, the host
      naming the returned type. */
  lemma SplitSound(url: string)
    requires SplitRepositoryUrl(url).Ok?
    ensures var (t, owner, name) := SplitRepositoryUrl(url).value;
      exists i, host :: 0 <= i <= |url| && host in Hosts && HostType(host) == t
        && StartsWith(url[i..], host + ".com/" + owner + "/" + name)
        && '/' !in owner && '/' !in name && '.' !in name
  {
    FirstMatchSound(url, 0);
    var i :| 0 <= i <= |url| && CoreAt(url, i) == FirstMatch(url, 0);
    CoreAtSound(url, i);
  }

  /** No match is found before `q` when none of the first `q` characters
      can start a host. */
  lemma {:induction false} FirstMatchSkips(s: string, p: nat, q: nat)
    requires p <= q <= |s|
    requires forall k :: p <= k < q ==> s[k] != 'g' && s[k] != 'b'
    ensures FirstMatch(s, p) == FirstMatch(s, q)
    decreases q - p
  {
    if p < q {
      FirstMatchSkips(s, p + 1, q);
    }
  }

  /** Where the host part matches, ".com/" follows the host. */
  lemma HostSlash(s: string, p: nat)
    requires p <= |s| && HostAt(s, p).Some?
    ensures var j := p + |HostAt(s, p).value| + 4;
      j < |s| && s[j] == '/' && s[j - 4] == '.' && s[j - 3] == 'c'
  {
    var host := HostAt(s, p).value;
    var t := host + ".com/";
    assert s[p..][..|t|] == t;
    assert s[p + |t| - 1] == t[|t| - 1];
    assert s[p + |t| - 5] == t[|t| - 5] && s[p + |t| - 4] == t[|t| - 4];
  }

  /** The host part matches at `p` when the text there is one of the hosts
      followed by ".com/". */
  lemma HostAtIs(s: string, p: nat, host: string)
    requires host in Hosts
    requires p + |host| + 5 <= |s| && s[p..p + |host| + 5] == host + ".com/"
    ensures HostAt(s, p) == Some(host)
  {
    assert s[p..][..|host| + 5] == host + ".com/";
    if host == "gitlab" {
      assert s[p + 3] == 'l';
      assert !StartsWith(s[p..], "github.com/") by { assert "github.com/"[3] == 'h'; }
    } else if host == "bitbucket" {
      assert s[p] == 'b';
    }
  }

  /** Where the host part matches, the groups are those after "<host>.com/". */
  lemma CoreAtHost(s: string, p: nat, host: string)
    requires p <= |s| && HostAt(s, p) == Some(host)
    ensures p + |host| + 5 <= |s| && CoreAt(s, p) == CoreAfter(s, host, p + |host| + 5)
  {
  }

  /** The groups after "<host>.com/" when an owner run of length `o`, a
      '/', and a name run of length `n` follow position `q`. */
  lemma CoreAfterIs(s: string, host: string, q: nat, o: nat, n: nat)
    requires o > 0 && n > 0 && q + 1 + o + n <= |s|
    requires forall k :: q <= k < q + o ==> !Stops(s[k], false)
    requires s[q + o] == '/'
    requires forall k :: q + 1 + o <= k < q + 1 + o + n ==> !Stops(s[k], true)
    requires q + 1 + o + n == |s| || Stops(s[q + 1 + o + n], true)
    ensures CoreAfter(s, host, q) == Some(UrlMatch(host, s[q..q + o], s[q + o + 1..q + o + 1 + n]))
  {
    RunLengthIs(s, q, false, o);
    RunLengthIs(s, q + o + 1, true, n);
  }

  /** Where each part of "<head><owner>/<name>" sits. */
  lemma UrlLayout(head: string, owner: string, name: string)
    ensures var url := head + owner + "/" + name; var q := |head|;
      |url| == q + |owner| + 1 + |name|
      && (forall k :: 0 <= k < q ==> url[k] == head[k])
      && (forall k :: q <= k < q + |owner| ==> url[k] == owner[k - q])
      && url[q + |owner|] == '/'
      && (forall k :: q + |owner| + 1 <= k < |url| ==> url[k] == name[k - q - |owner| - 1])
      && url[q..q + |owner|] == owner
      && url[q + |owner| + 1..] == name
  {
  }

  /** After "<head>", "<owner>/<name>" holds an owner run, a '/' and a name
      run that ends the text. */
  lemma UrlRuns(head: string, owner: string, name: string)
    requires owner != [] && '/' !in owner
    requires name != [] && '/' !in name && '.' !in name
    ensures var url := head + owner + "/" + name; var q, o, n := |head|, |owner|, |name|;
      q + 1 + o + n == |url|
      && (forall k :: q <= k < q + o ==> !Stops(url[k], false))
      && url[q + o] == '/'
      && (forall k :: q + 1 + o <= k < q + 1 + o + n ==> !Stops(url[k], true))
      && url[q..q + o] == owner && url[q + o + 1..q + o + 1 + n] == name
  {
    var url := head + owner + "/" + name;
    var q := |head|;
    UrlLayout(head, owner, name);
    forall k | q <= k < q + |owner| ensures !Stops(url[k], false) {
      assert url[k] == owner[k - q];
    }
    forall k | q + |owner| + 1 <= k < |url| ensures !Stops(url[k], true) {
      assert url[k] == name[k - q - |owner| - 1];
    }
  }

  /** The host part of "https://<host>.com/<rest>" matches at 8. */
  lemma HostedUrlHost(host: string, rest: string)
    requires host == "github" || host == "gitlab"
    ensures HostAt("https://" + host + ".com/" + rest, 8) == Some(host)
  {
    var head := "https://" + host + ".com/";
    var url := head + rest;
    assert url[8..|head|] == host + ".com/" by {
      assert forall k :: 8 <= k < |head| ==> url[k] == head[k] == (host + ".com/")[k - 8];
    }
    HostAtIs(url, 8, host);
  }

  /** The match at the host of "https://<host>.com/<owner>/<name>". */
  lemma HostedUrlCore(host: string, owner: string, name: string)
    requires host == "github" || host == "gitlab"
    requires owner != [] && '/' !in owner
    requires name != [] && '/' !in name && '.' !in name
    ensures CoreAt("https://" + host + ".com/" + owner + "/" + name, 8) == Some(UrlMatch(host, owner, name))
  {
    var head := "https://" + host + ".com/";
    var url := head + owner + "/" + name;
    assert url == head + (owner + "/" + name);
    HostedUrlHost(host, owner + "/" + name);
    CoreAtHost(url, 8, host);
    CoreAfterParts(head, host, owner, name);
  }

  /** The groups after "<head>" in "<head><owner>/<name>". */
  lemma CoreAfterParts(head: string, host: string, owner: string, name: string)
    requires owner != [] && '/' !in owner
    requires name != [] && '/' !in name && '.' !in name
    ensures CoreAfter(head + owner + "/" + name, host, |head|) == Some(UrlMatch(host, owner, name))
  {
    UrlRuns(head, owner, name);
    CoreAfterIs(head + owner + "/" + name, host, |head|, |owner|, |name|);
  }

  /** The leftmost match in "https://<host>.com/<owner>/<name>". */
  lemma HostedUrlMatch(host: string, owner: string, name: string)
    requires host == "github" || host == "gitlab"
    requires owner != [] && '/' !in owner
    requires name != [] && '/' !in name && '.' !in name
    ensures FirstMatch("https://" + host + ".com/" + owner + "/" + name, 0) == Some(UrlMatch(host, owner, name))
  {
    var url := "https://" + host + ".com/" + owner + "/" + name;
    assert url[..8] == "https://";
    forall k | 0 <= k < 8 ensures url[k] != 'g' && url[k] != 'b' {
      assert url[k] == url[..8][k];
    }
    FirstMatchSkips(url, 0, 8);
    HostedUrlCore(host, owner, name);
  }

  /** Building a GitHub or GitLab URL and parsing it gives back the type,
      owner and name. */
  lemma SplitRepositoryUrlRoundTrip(typ: string, owner: string, name: string)
    requires typ == Api.RepositoryTypeGithub || typ == Api.RepositoryTypeGitlab
    requires owner != [] && '/' !in owner
    requires name != [] && '/' !in name && '.' !in name
    ensures SplitRepositoryUrl(RepositoryUrl(typ, owner, name)) == Ok((typ, owner, name))
  {
    var host := if typ == Api.RepositoryTypeGithub then "github" else "gitlab";
    assert RepositoryUrl(typ, owner, name) == "https://" + host + ".com/" + owner + "/" + name;
    HostedUrlMatch(host, owner, name);
  }

  /** No match anywhere in a string whose slashes sit at 6, 7, 21 and one
      last position, with 'p' at 3 and 'o' at 18, as in
      "https://bitbucket.org/<owner>/<name>". */
  lemma NoCoreInBitbucketUrl(s: string, p: nat, last: nat)
    requires p <= |s| && 22 <= last < |s|
    requires s[3] == 'p' && s[7] == '/' && s[18] == 'o'
    requires forall k :: 0 <= k < |s| && s[k] == '/' ==> k == 6 || k == 7 || k == 21 || k == last
    ensures CoreAt(s, p).None?
  {
    if CoreAt(s, p).Some? {
      HostSlash(s, p);
    }
  }

  /** The Bitbucket URL that `RepositoryUrl` builds (on bitbucket.org) is
      never accepted by `SplitRepositoryUrl`, whose pattern asks for
      bitbucket.com. */
  lemma BitbucketUrlDoesNotParse(owner: string, name: string)
    requires '/' !in owner && '/' !in name
    ensures SplitRepositoryUrl(RepositoryUrl(Api.RepositoryTypeBitbucket, owner, name)).Err?
  {
    var head := "https://bitbucket.org/";
    var s := RepositoryUrl(Api.RepositoryTypeBitbucket, owner, name);
    assert s == head + owner + "/" + name;
    var last := 22 + |owner|;
    assert forall k :: 0 <= k < 22 ==> s[k] == head[k];
    forall k | 0 <= k < |s| ensures s[k] == '/' ==> k == 6 || k == 7 || k == 21 || k == last {
      if 22 <= k < last {
        assert s[k] == owner[k - 22];
      } else if k > last {
        assert s[k] == name[k - last - 1];
      }
    }
    forall p | 0 <= p <= |s| ensures CoreAt(s, p).None? {
      NoCoreInBitbucketUrl(s, p, last);
    }
    NoMatchAnywhere(s, 0);
  }

  lemma {:induction false} NoMatchAnywhere(s: string, p: nat)
    requires p <= |s|
    requires forall i :: p <= i <= |s| ==> CoreAt(s, i).None?
    ensures FirstMatch(s, p).None?
    decreases |s| - p
  {
    if p < |s| {
      NoMatchAnywhere(s, p + 1);
    }
  }
}
