/** The `addRepository` resolver: validates the input, builds or parses the
    repository URL, and creates the Repository (and, for the field form, its
    token Secret) in namespace "default".

    The API server completes the `generateName` "repo-" with a name suffix
    of its choosing; that suffix is an input of the model. */
module RepositoryResolver {
  import opened Wrappers
  import opened Strings
  import opened Kube
  import opened Cluster
  import opened RepositoryConverters
  import Api = GqlModel
  import Crd = CloudApi

  /** The objects the resolver creates. */
  datatype World = World(repositories: Store<Crd.Repository>, secrets: Store<Secret>)

  const RepositoryNamespace := "default"
  const RepositoryPrefix := "repo-"

  /** The checks of `add`, in their order: owner, name, type, token and
      branch must be given, the first two also nonempty. */
  function CheckFields(input: Api.AddRepositoryInput): (o: Outcome)
    ensures o.Pass? <==>
      input.owner.Some? && input.owner.value != "" && input.name.Some? && input.name.value != ""
      && input.typ.Some? && input.token.Some? && input.branch.Some?
    ensures (input.owner.None? || input.owner.value == "") ==> o == Fail(Message("owner cannot be empty"))
    ensures input.owner.Some? && input.owner.value != "" && (input.name.None? || input.name.value == "")
            ==> o == Fail(Message("name cannot be empty"))
    ensures (input.owner.Some? && input.owner.value != "" && input.name.Some? && input.name.value != ""
             && input.typ.None?) ==> o == Fail(Message("type cannot be empty"))
    ensures (input.owner.Some? && input.owner.value != "" && input.name.Some? && input.name.value != ""
             && input.typ.Some? && input.token.None?) ==> o == Fail(Message("token cannot be empty"))
    ensures (input.owner.Some? && input.owner.value != "" && input.name.Some? && input.name.value != ""
             && input.typ.Some? && input.token.Some? && input.branch.None?)
            ==> o == Fail(Message("branch cannot be empty"))
  {
    if input.owner.None? || input.owner.value == "" then Fail(Message("owner cannot be empty"))
    else if input.name.None? || input.name.value == "" then Fail(Message("name cannot be empty"))
    else if input.typ.None? then Fail(Message("type cannot be empty"))
    else if input.token.None? then Fail(Message("token cannot be empty"))
    else if input.branch.None? then Fail(Message("branch cannot be empty"))
    else Pass
  }

  /** A GitHub Repository to be named by the server. */
  function NewRepository(url: string, owner: string, name: string, branch: string): Crd.Repository
  {
    Crd.Repository(GeneratedMeta(RepositoryNamespace, RepositoryPrefix),
      Crd.RepositorySpec(Crd.RepositoryTypeGithub, Some(Crd.GithubRepositorySpec(owner, name, url, branch))))
  }

  /** The Repository as the server stores it: named `generateName + suffix`. */
  function Named(repo: Crd.Repository, suffix: string): (r: Crd.Repository)
    ensures r.meta.name == CreatedName(repo.meta, suffix) && r.spec == repo.spec
  {
    repo.(meta := repo.meta.(name := CreatedName(repo.meta, suffix)))
  }

  /** The key a new Repository is stored under. */
  function NewKey(suffix: string): ObjectKey
  {
    ObjectKey(RepositoryNamespace, RepositoryPrefix + suffix)
  }

  /** `add`: validate, build the URL, and for GitHub create the Repository
      and then its token Secret under the same name. */
  function AddFromFieldsSpec(w: World, input: Api.AddRepositoryInput, suffix: string): (Result<Api.Repository>, World)
  {
    match CheckFields(input)
    case Fail(e) => (Err(e), w)
    case Pass =>
      var typ := input.typ.value;
      var owner := input.owner.value;
      var name := input.name.value;
      var url := RepositoryUrl(typ, owner, name);
      if url == "" then (Err(Message("failed to build repository URL")), w)
      else if typ != Api.RepositoryTypeGithub then (Err(Message("unsupported repository type: " + typ)), w)
      else
        var repo := Named(NewRepository(url, owner, name, input.branch.value), suffix);
        var (o1, repositories) := w.repositories.Create(KeyOf(repo.meta), repo);
        if o1.Fail? then (Err(o1.error), w)
        else
          var w1 := w.(repositories := repositories);
          var secret := Secret(NamedMeta(repo.meta.namespace, repo.meta.name), map["token" := input.token.value]);
          var (o2, secrets) := w1.secrets.Create(KeyOf(secret.meta), secret);
          if o2.Fail? then (Err(o2.error), w1)
          else (RepositoryCrdToModel(repo), w1.(secrets := secrets))
  }

  /** The URL without one trailing ".git"; slicing off the last four
      characters of a shorter URL panics. */
  function StripGitSuffix(url: string): (r: Result<string>)
    ensures r.Ok? <==> |url| >= 4
    ensures r.Ok? && EndsWith(url, ".git") ==> url == r.value + ".git"
    ensures r.Ok? && !EndsWith(url, ".git") ==> r.value == url
  {
    if |url| < 4 then Err(Panic("slice bounds out of range"))
    else if url[|url| - 4..] == ".git" then Ok(url[..|url| - 4])
    else Ok(url)
  }

  /** `addURL`: parse the URL and, for GitHub, create a Repository with the
      URL stripped of ".git" and no branch; no Secret is created. */
  function AddFromUrlSpec(w: World, url: string, suffix: string): (Result<Api.Repository>, World)
  {
    if url == "" then (Err(Message("URL cannot be empty")), w)
    else
      match SplitRepositoryUrl(url)
      case Err(e) => (Err(e), w)
      case Ok(parts) =>
        var (typ, owner, name) := parts;
        match StripGitSuffix(url)
        case Err(e) => (Err(e), w)
        case Ok(stripped) =>
          if typ != Crd.RepositoryTypeGithub then (Err(Message("unsupported repository type: " + typ)), w)
          else
            var repo := Named(NewRepository(stripped, owner, name, ""), suffix);
            var (o, repositories) := w.repositories.Create(KeyOf(repo.meta), repo);
            if o.Fail? then (Err(o.error), w)
            else (RepositoryCrdToModel(repo), w.(repositories := repositories))
  }

  /** `Add`: the URL form when a URL is given, the field form otherwise. */
  function AddSpec(w: World, input: Api.AddRepositoryInput, suffix: string): (Result<Api.Repository>, World)
  {
    if input.url.Some? then AddFromUrlSpec(w, input.url.value, suffix) else AddFromFieldsSpec(w, input, suffix)
  }

  /** A complete GitHub input creates the Repository, with the built URL and
      the given owner, name and branch, and a Secret of the same name holding
      only the token; the result shows the new Repository. */
  lemma GithubFieldsCreateRepositoryAndSecret(w: World, input: Api.AddRepositoryInput, suffix: string)
    requires CheckFields(input).Pass? && input.typ.value == Api.RepositoryTypeGithub
    requires NewKey(suffix) !in w.repositories.objects && NewKey(suffix) !in w.secrets.objects
    ensures var (r, after) := AddFromFieldsSpec(w, input, suffix);
      var owner := input.owner.value;
      var name := input.name.value;
      var url := "https://github.com/" + owner + "/" + name;
      r == Ok(Api.Repository(RepositoryPrefix + suffix, Api.RepositoryTypeGithub, owner + "/" + name, owner, name, url))
      && after.repositories.Get(NewKey(suffix))
         == Ok(Named(NewRepository(url, owner, name, input.branch.value), suffix))
      && after.secrets.Get(NewKey(suffix))
         == Ok(Secret(NamedMeta(RepositoryNamespace, RepositoryPrefix + suffix), map["token" := input.token.value]))
  {
  }

  /** Only a GitHub input changes the cluster, by either form. */
  lemma OnlyGithubCreates(w: World, input: Api.AddRepositoryInput, suffix: string)
    ensures AddFromFieldsSpec(w, input, suffix).1 != w ==> input.typ == Some(Api.RepositoryTypeGithub)
    ensures input.url.Some? && AddFromUrlSpec(w, input.url.value, suffix).1 != w ==>
      SplitRepositoryUrl(input.url.value).Ok? && SplitRepositoryUrl(input.url.value).value.0 == Crd.RepositoryTypeGithub
  {
  }

  /** A valid type other than GitHub gets an unsupported-type error, an
      invalid one a URL error, and nothing is created. */
  lemma OtherTypesAreRefused(w: World, input: Api.AddRepositoryInput, suffix: string)
    requires CheckFields(input).Pass? && input.typ.value != Api.RepositoryTypeGithub
    ensures Api.IsValid(Api.RepositoryType, input.typ.value) ==>
      AddFromFieldsSpec(w, input, suffix) == (Err(Message("unsupported repository type: " + input.typ.value)), w)
    ensures !Api.IsValid(Api.RepositoryType, input.typ.value) ==>
      AddFromFieldsSpec(w, input, suffix) == (Err(Message("failed to build repository URL")), w)
  {
  }

  /** When the Repository cannot be created, no Secret is created either. */
  lemma FailedRepositoryCreatesNoSecret(w: World, input: Api.AddRepositoryInput, suffix: string)
    requires NewKey(suffix) in w.repositories.objects
    ensures AddFromFieldsSpec(w, input, suffix).1 == w
  {
  }

  /** A URL that parses is never shorter than four characters, so `addURL`
      does not panic. */
  lemma AddFromUrlNeverPanics(w: World, url: string, suffix: string)
    ensures var r := AddFromUrlSpec(w, url, suffix).0; r.Err? ==> !r.error.Panic?
  {
    if url != "" && SplitRepositoryUrl(url).Ok? {
      SplitSound(url);
      var (t, owner, name) := SplitRepositoryUrl(url).value;
      var i, host :| 0 <= i <= |url| && host in Hosts && HostType(host) == t
        && StartsWith(url[i..], host + ".com/" + owner + "/" + name);
      assert |host + ".com/" + owner + "/" + name| <= |url[i..]|;
    }
  }

  /** A GitHub URL creates a Repository with the parsed owner and name, the
      URL without its ".git", and no branch. */
  lemma GithubUrlCreatesRepository(w: World, url: string, suffix: string)
    requires SplitRepositoryUrl(url).Ok? && SplitRepositoryUrl(url).value.0 == Crd.RepositoryTypeGithub
    requires NewKey(suffix) !in w.repositories.objects
    ensures var (_, owner, name) := SplitRepositoryUrl(url).value;
      var (r, after) := AddFromUrlSpec(w, url, suffix);
      var stored := if EndsWith(url, ".git") then url[..|url| - 4] else url;
      r == Ok(Api.Repository(RepositoryPrefix + suffix, Api.RepositoryTypeGithub, owner + "/" + name, owner, name, stored))
      && after == w.(repositories := after.repositories)
      && after.repositories.Get(NewKey(suffix)) == Ok(Named(NewRepository(stored, owner, name, ""), suffix))
  {
    AddFromUrlNeverPanics(w, url, suffix);
    assert url != "";
  }

  /** Adding by the URL `RepositoryURL` builds for owner and name gives the
      repository adding by the fields would show. */
  lemma BuiltUrlAddsSameRepository(w: World, owner: string, name: string, suffix: string)
    requires owner != [] && '/' !in owner
    requires name != [] && '/' !in name && '.' !in name
    requires NewKey(suffix) !in w.repositories.objects
    ensures var url := RepositoryUrl(Api.RepositoryTypeGithub, owner, name);
      AddFromUrlSpec(w, url, suffix).0
      == Ok(Api.Repository(RepositoryPrefix + suffix, Api.RepositoryTypeGithub, owner + "/" + name, owner, name, url))
  {
    var url := RepositoryUrl(Api.RepositoryTypeGithub, owner, name);
    SplitRepositoryUrlRoundTrip(Api.RepositoryTypeGithub, owner, name);
    GithubUrlCreatesRepository(w, url, suffix);
    NoGitSuffix("https://github.com/" + owner, name);
    assert url == "https://github.com/" + owner + "/" + name;
  }

  /** A URL ending in "/<name>", with a nonempty name without '/' or '.',
      does not end in ".git". */
  lemma NoGitSuffix(head: string, name: string)
    requires name != [] && '/' !in name && '.' !in name
    ensures !EndsWith(head + "/" + name, ".git")
  {
    var url := head + "/" + name;
    var n := |url|;
    if |name| >= 4 {
      assert url[n - 4] == name[|name| - 4];
      assert url[n - 4..][0] != '.';
    } else if n >= 4 {
      var slash := n - |name| - 1;
      assert url[slash] == '/';
      assert url[n - 4..][slash - (n - 4)] == '/';
    }
  }

  /** The repository resolver over the cluster's Repositories and
      Secrets. */
  class Resolver {
    const repositories: Collection<Crd.Repository>
    const secrets: Collection<Secret>

    constructor(repositories: Collection<Crd.Repository>, secrets: Collection<Secret>)
      ensures this.repositories == repositories && this.secrets == secrets
    {
      this.repositories := repositories;
      this.secrets := secrets;
    }

    function Snapshot(): World
      reads repositories, secrets
    {
      World(repositories.store, secrets.store)
    }

    method Add(input: Api.AddRepositoryInput, suffix: string) returns (r: Result<Api.Repository>)
      modifies repositories, secrets
      ensures (r, Snapshot()) == AddSpec(old(Snapshot()), input, suffix)
    {
      if input.url.Some? {
        r := AddFromUrl(input.url.value, suffix);
      } else {
        r := AddFromFields(input, suffix);
      }
    }

    method AddFromFields(input: Api.AddRepositoryInput, suffix: string) returns (r: Result<Api.Repository>)
      modifies repositories, secrets
      ensures (r, Snapshot()) == AddFromFieldsSpec(old(Snapshot()), input, suffix)
    {
      var checked := CheckFields(input);
      if checked.Fail? {
        return Err(checked.error);
      }
      var typ := input.typ.value;
      var url := RepositoryUrl(typ, input.owner.value, input.name.value);
      if url == "" {
        return Err(Message("failed to build repository URL"));
      }
      if typ != Api.RepositoryTypeGithub {
        return Err(Message("unsupported repository type: " + typ));
      }
      var repo := Named(NewRepository(url, input.owner.value, input.name.value, input.branch.value), suffix);
      var o := repositories.Create(KeyOf(repo.meta), repo);
      if o.Fail? {
        return Err(o.error);
      }
      var secret := Secret(NamedMeta(repo.meta.namespace, repo.meta.name), map["token" := input.token.value]);
      o := secrets.Create(KeyOf(secret.meta), secret);
      if o.Fail? {
        return Err(o.error);
      }
      r := RepositoryCrdToModel(repo);
    }

    method AddFromUrl(url: string, suffix: string) returns (r: Result<Api.Repository>)
      modifies repositories
      ensures (r, Snapshot()) == AddFromUrlSpec(old(Snapshot()), url, suffix)
    {
      if url == "" {
        return Err(Message("URL cannot be empty"));
      }
      var parsed := SplitRepositoryUrl(url);
      if parsed.Err? {
        return Err(parsed.error);
      }
      var (typ, owner, name) := parsed.value;
      var stripped := StripGitSuffix(url);
      if stripped.Err? {
        return Err(stripped.error);
      }
      if typ != Crd.RepositoryTypeGithub {
        return Err(Message("unsupported repository type: " + typ));
      }
      var repo := Named(NewRepository(stripped.value, owner, name, ""), suffix);
      var o := repositories.Create(KeyOf(repo.meta), repo);
      if o.Fail? {
        return Err(o.error);
      }
      r := RepositoryCrdToModel(repo);
    }
  }
}
