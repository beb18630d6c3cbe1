/**
 * The value records of Sources/RepoToolsCore/Model.swift: a git remote, a git branch and a
 * GitHub repository path, together with the validation that turns a user-supplied string
 * into a `GithubRepo` (an anchored match of `([\w-]+)/([\w-]+)`).
 */
module Model {
  import opened Results

  /** `\w` of the pattern, taken as ASCII letters, digits and underscore. */
  predicate IsWordChar(c: char) {
    ('a' <= c <= 'z') || ('A' <= c <= 'Z') || ('0' <= c <= '9') || c == '_'
  }

  /** One character of the character class `[\w-]`. */
  predicate IsSegmentChar(c: char) {
    IsWordChar(c) || c == '-'
  }

  /** A string matched by `[\w-]+`: non-empty, every character in the class. */
  predicate IsSegment(s: string) {
    |s| > 0 && forall i :: 0 <= i < |s| ==> IsSegmentChar(s[i])
  }

  /** The language of the anchored pattern `\A([\w-]+)/([\w-]+)\z`, stated by where its slash sits. */
  ghost predicate MatchesRepoPattern(path: string) {
    exists i :: 0 <= i < |path| && path[i] == '/' && IsSegment(path[..i]) && IsSegment(path[i + 1..])
  }

  datatype GithubRepo = GithubRepo(path: string, organisation: string, repository: string) {
    /** What a successfully parsed repository path guarantees about its three fields. */
    predicate Valid() {
      IsSegment(organisation) && IsSegment(repository) && path == organisation + "/" + repository
    }
  }

  /** A git remote: a local alias and the GitHub repository it points at. */
  datatype Remote = Remote(name: string, repo: GithubRepo)

  /** A git branch, known by its name. */
  datatype Branch = Branch(name: string)

  /** The rejection of a path; like the source's fixed message, it does not repeat the input. */
  datatype PathError = InvalidGithubPath

  /** Index of the first '/' in `s`, or `|s|` when there is none. */
  function SlashIndex(s: string): (i: nat)
    ensures i <= |s|
    ensures i < |s| ==> s[i] == '/'
    ensures forall j :: 0 <= j < i ==> s[j] != '/'
  {
    if |s| == 0 || s[0] == '/' then 0 else 1 + SlashIndex(s[1..])
  }

  /** The first slash of `a + b` is where `b` starts, when `a` has none and `b` starts with one. */
  lemma SlashIndexOfJoin(a: string, b: string)
    requires forall j :: 0 <= j < |a| ==> a[j] != '/'
    requires |b| > 0 && b[0] == '/'
    ensures SlashIndex(a + b) == |a|
  {
    assert (a + b)[|a|] == '/';
  }

  /**
   * GithubRepo.init(path:): split the input at its slash and accept it only when both sides
   * are segments; `path` is the whole input because the match is anchored at both ends.
   */
  function ParseGithubRepo(path: string): (r: Result<GithubRepo, PathError>)
    ensures r.Ok? <==> MatchesRepoPattern(path)
    ensures r.Ok? ==> r.value.Valid() && r.value.path == path
  {
    var i := SlashIndex(path);
    if i < |path| && IsSegment(path[..i]) && IsSegment(path[i + 1..]) then
      var repo := GithubRepo(path, path[..i], path[i + 1..]);
      assert path == path[..i] + "/" + path[i + 1..];
      Ok(repo)
    else
      Err(InvalidGithubPath)
  }

  /** Joining two segments with '/' and parsing gives back exactly those two segments. */
  lemma ParseJoinRoundTrip(organisation: string, repository: string)
    requires IsSegment(organisation) && IsSegment(repository)
    ensures ParseGithubRepo(organisation + "/" + repository)
         == Ok(GithubRepo(organisation + "/" + repository, organisation, repository))
  {
    var path := organisation + "/" + repository;
    SlashIndexOfJoin(organisation, "/" + repository);
    assert organisation + "/" + repository == organisation + ("/" + repository);
    assert path[..|organisation|] == organisation;
    assert path[|organisation| + 1..] == repository;
  }

  /** A path that matches the pattern at slash `k`: that is its only slash, and it has none at either end. */
  lemma MatchShape(path: string, k: int)
    requires 0 <= k < |path| && path[k] == '/' && IsSegment(path[..k]) && IsSegment(path[k + 1..])
    ensures forall m :: 0 <= m < |path| && m != k ==> IsSegmentChar(path[m]) && path[m] != '/'
    ensures path[0] != '/' && path[|path| - 1] != '/'
  {
    forall m | 0 <= m < |path| && m != k
      ensures IsSegmentChar(path[m])
    {
      if m < k {
        assert path[..k][m] == path[m];
      } else {
        assert path[k + 1..][m - k - 1] == path[m];
      }
    }
    assert path[..k][0] == path[0];
    assert path[k + 1..][|path| - k - 2] == path[|path| - 1];
  }

  /** The rejection cases: no slash, a second slash, an empty side, a character outside `[\w-]`. */
  lemma ParseRejects(path: string)
    requires || (forall k :: 0 <= k < |path| ==> path[k] != '/')
             || (exists i, j :: 0 <= i < j < |path| && path[i] == '/' && path[j] == '/')
             || (|path| > 0 && (path[0] == '/' || path[|path| - 1] == '/'))
             || (exists k :: 0 <= k < |path| && path[k] != '/' && !IsSegmentChar(path[k]))
    ensures ParseGithubRepo(path) == Err(InvalidGithubPath)
  {
    if k :| 0 <= k < |path| && path[k] == '/' && IsSegment(path[..k]) && IsSegment(path[k + 1..]) {
      MatchShape(path, k);
    }
  }

}
